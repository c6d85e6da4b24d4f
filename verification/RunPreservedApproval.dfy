// Requeueing, announcing an approval, and submitting keep the invariant; so does
// every careful step.
module RunPreservedApproval {
  import opened Outcomes
  import opened RunLog
  import opened RunTables
  import opened RunProtocol
  import opened RunInvariant
  import opened RunPreserved
  import opened RunPreservedLog
  import opened RunPreservedReview

  // --- Requeueing ------------------------------------------------------------------

  // The approved ids grow by the paused hook, which is not among them.
  lemma RequeueRow(c: Config, s: State, s': State, v: nat, r: nat)
    requires ReviewerRequeues(s, v) == Some(s') && r == s.reviewers[v].run
    requires r in s.db.runs && RowOk(c, s.db, s.claims, r)
    requires ReviewerAgrees(c, s.db, s.reviewers[v], r)
    ensures s'.db.runs[r].approved == s.db.runs[r].approved + [s.reviewers[v].mark.hook]
    ensures RowOk(c, s'.db, s'.claims, r)
  {
    var m, row, row' := s.reviewers[v].mark, s.db.runs[r], s'.db.runs[r];
    assert row'.approved == row.approved + [m.hook];
    assert NoDuplicates(row'.approved);
    forall h | h in row'.approved
      ensures h in HookIds(c.deployments[row'.deployment])
    {
      assert h in row.approved || h == m.hook;
    }
    forall i | 0 <= i < |row'.approved|
      ensures Pauses(s'.db, r)[i].hook == row'.approved[i] && ReviewIs(s'.db, Pauses(s'.db, r)[i], r, Accepted)
    {
      if i == |row.approved| {
        assert Pauses(s.db, r)[i] == m;
      }
    }
  }

  lemma RequeueLog(c: Config, s: State, s': State, v: nat, r: nat)
    requires ReviewerRequeues(s, v) == Some(s') && r == s.reviewers[v].run
    requires r in s.db.runs && RowOk(c, s.db, s.claims, r) && LogOk(s, r)
    requires ReviewerAgrees(c, s.db, s.reviewers[v], r)
    requires s'.db.runs[r].approved == s.db.runs[r].approved + [s.reviewers[v].mark.hook]
    ensures LogOk(s', r)
  {
    var m, k, ps, log := s.reviewers[v].mark, |s.db.runs[r].approved|, Pauses(s.db, r), LogOf(s.db, r);
    assert ps[k] == m && |ps| == k + 1;
    assert Approved(m) !in log;
    forall i | 0 <= i < k + 1
      ensures Approved(ps[i]) in log <==> ps[i].review !in s'.owed
    {
    }
    forall m' | Approved(m') in log
      ensures m' in ps[..k + 1]
    {
      var i :| 0 <= i < k && ps[..k][i] == m';
      assert ps[..k + 1][i] == m';
    }
    forall m'
      ensures Denied(m') !in log
    {
      if Denied(m') in log {
        DeniedInLog(log, m');
      }
    }
  }

  // The first k pauses are not of this review.
  ghost predicate OtherReviews(ps: seq<Mark>, k: nat, id: nat) {
    k <= |ps| && forall i :: 0 <= i < k ==> ps[i].review != id
  }

  lemma RequeueSide(c: Config, s: State, s': State, v: nat, r: nat)
    requires ReviewerRequeues(s, v) == Some(s') && r == s.reviewers[v].run
    requires r in s.charge && s.charge[r] == ByReviewer(v)
    requires r in s.db.runs && s.db.runs[r].deployment in c.deployments && r in s'.db.runs
    requires ReviewerAgrees(c, s.db, s.reviewers[v], r)
    requires s'.db.runs[r].approved == s.db.runs[r].approved + [s.reviewers[v].mark.hook]
    requires WorkersOf(s, r) && ReviewersOf(s, r) && OwedOf(s, r) && ReviewsOf(s, r)
    requires OtherReviews(Pauses(s.db, r), |s.db.runs[r].approved|, s.reviewers[v].mark.review)
    ensures WorkersOf(s', r) && ReviewersOf(s', r) && OwedOf(s', r) && ReviewsOf(s', r)
  {
    var m, k, ps := s.reviewers[v].mark, |s.db.runs[r].approved|, Pauses(s.db, r);
    forall id | id in s'.db.reviews && s'.db.reviews[id].run == r
      ensures Mark(id, s'.db.reviews[id].hook) in Pauses(s'.db, r)
    {
      assert !AboutToAnnounce(s, r, Mark(id, s.db.reviews[id].hook));
    }
    forall u | u in s'.reviewers && s'.reviewers[u].run == r
      ensures s'.reviewers[u].Requeued?
      ensures s'.reviewers[u].mark.review in s'.owed && s'.owed[s'.reviewers[u].mark.review] == u
      ensures exists i :: 0 <= i < k + 1 && i < |ps| && ps[i] == s'.reviewers[u].mark
    {
      if u == v {
        assert ps[k] == m;
      } else {
        var i :| 0 <= i < k && i < |ps| && ps[i] == s.reviewers[u].mark;
        assert ps[i].review != m.review;
      }
    }
  }

  lemma RequeueMoves(c: Config, s: State, s': State, v: nat, r: nat)
    requires ReviewerRequeues(s, v) == Some(s') && r == s.reviewers[v].run
    requires r in s.db.runs && RowOk(c, s.db, s.claims, r)
    requires s.reviewers[v].mark.review in s.db.reviews && s.db.reviews[s.reviewers[v].mark.review].run == r
    ensures ReviewerMoved(s, s', v, r, s.reviewers[v].mark.review)
  {
    var id := s.reviewers[v].mark.review;
    assert s'.claims == s.claims[r := s'.claims[r]];
    assert s'.db.reviews == s.db.reviews[id := s'.db.reviews[id]];
  }

  lemma RequeueRests(c: Config, s: State, s': State, v: nat, r: nat)
    requires ReviewerRequeues(s, v) == Some(s') && r == s.reviewers[v].run
    requires r in s.db.runs && RowOk(c, s.db, s.claims, r) && RowOk(c, s'.db, s'.claims, r)
    requires ReviewerAgrees(c, s.db, s.reviewers[v], r)
    requires |s'.db.runs[r].approved| == |s.db.runs[r].approved| + 1
    ensures InHand(c, s', r)
  {
    assert RestsWell(c, s'.db, r);
  }

  lemma RequeueEarlier(c: Config, s: State, v: nat, r: nat)
    requires r in s.db.runs && v in s.reviewers && RowOk(c, s.db, s.claims, r)
    requires ReviewerAgrees(c, s.db, s.reviewers[v], r)
    ensures OtherReviews(Pauses(s.db, r), |s.db.runs[r].approved|, s.reviewers[v].mark.review)
  {
    assert Pauses(s.db, r)[|s.db.runs[r].approved|] == s.reviewers[v].mark;
  }

  lemma LocalRequeue(c: Config, s: State, s': State, v: nat, r: nat)
    requires ReviewerRequeues(s, v) == Some(s') && r == s.reviewers[v].run
    requires r in s.db.runs && s.db.runs[r].deployment in c.deployments
    requires RowOk(c, s.db, s.claims, r) && LogOk(s, r)
    requires r in s.charge && s.charge[r] == ByReviewer(v) && ReviewerAgrees(c, s.db, s.reviewers[v], r)
    requires WorkersOf(s, r) && ReviewersOf(s, r) && OwedOf(s, r) && ReviewsOf(s, r)
    ensures RunOk(c, s', r)
  {
    RequeueRow(c, s, s', v, r);
    RequeueLog(c, s, s', v, r);
    RequeueEarlier(c, s, v, r);
    RequeueSide(c, s, s', v, r);
    RequeueRests(c, s, s', v, r);
  }

  lemma KeepsRequeue(c: Config, s: State, v: nat)
    requires Inv(c, s) && ReviewerRequeues(s, v).Some?
    ensures Inv(c, ReviewerRequeues(s, v).value)
    ensures Only(s, ReviewerRequeues(s, v).value, s.reviewers[v].run)
  {
    var s', r := ReviewerRequeues(s, v).value, s.reviewers[v].run;
    assert RunOk(c, s, r);
    ReviewerInCharge(c, s, v, r);
    LocalRequeue(c, s, s', v, r);
    RequeueMoves(c, s, s', v, r);
    KeepsReviewer(c, s, s', v, r, s.reviewers[v].mark.review);
  }

  // --- Announcing an approval ---------------------------------------------------------

  // An approval leaves the stage of the log as it is, whoever has the run by now.
  lemma ApprovalStage(s: State, s': State, v: nat, r: nat)
    requires ReviewerAnnouncesApproval(s, v) == Some(s') && r == s.reviewers[v].run
    ensures LogOf(s'.db, r) == LogOf(s.db, r) + [Approved(s.reviewers[v].mark)]
    ensures StageOf(LogOf(s'.db, r)) == StageOf(LogOf(s.db, r))
  {
    LogOfAppend(s.db, r, Approved(s.reviewers[v].mark));
  }

  lemma ApprovalHand(c: Config, s: State, s': State, v: nat, r: nat)
    requires ReviewerAnnouncesApproval(s, v) == Some(s') && r == s.reviewers[v].run
    requires RowOk(c, s.db, s.claims, r) && InHand(c, s, r)
    ensures RowOk(c, s'.db, s'.claims, r) && InHand(c, s', r)
  {
    ApprovalStage(s, s', v, r);
    assert RowOk(c, s'.db, s'.claims, r);
    match s.charge[r]
    case Nobody => assert RestsWell(c, s'.db, r);
    case ByWorker(w) => assert WorkerAgrees(c, s'.db, s'.workers[w], r);
    case ByReviewer(u) => assert ReviewerAgrees(c, s'.db, s'.reviewers[u], r);
  }

  lemma ApprovalLog(c: Config, s: State, s': State, v: nat, r: nat)
    requires ReviewerAnnouncesApproval(s, v) == Some(s') && r == s.reviewers[v].run
    requires RowOk(c, s.db, s.claims, r) && LogOk(s, r) && ReviewersOf(s, r)
    requires !StageOf(LogOf(s.db, r)).kind.Broken?
    ensures LogOk(s', r)
  {
    ApprovalStage(s, s', v, r);
    var m, k, ps, log := s.reviewers[v].mark, |s.db.runs[r].approved|, Pauses(s.db, r), LogOf(s.db, r);
    var at :| 0 <= at < k && at < |ps| && ps[at] == m;
    PausedInLog(log, m);
    assert Approved(m) !in log;
    forall i | 0 <= i < |log| && log[i].Approved?
      ensures log[i].mark.review != m.review
    {
      assert Approved(log[i].mark) in log;
      var j :| 0 <= j < k && ps[..k][j] == log[i].mark;
      assert ps[j] == log[i].mark;
    }
    MatchedAppend(log, Approved(m));
    assert ps[..k][at] == m;
    forall i | 0 <= i < k
      ensures Approved(ps[i]) in log + [Approved(m)] <==> ps[i].review !in s'.owed
    {
      if i != at {
        assert ps[i].review != ps[at].review;
      }
    }
  }

  lemma ApprovalSide(s: State, s': State, v: nat, r: nat)
    requires ReviewerAnnouncesApproval(s, v) == Some(s') && r == s.reviewers[v].run
    requires WorkersOf(s, r) && ReviewersOf(s, r) && OwedOf(s, r) && ReviewsOf(s, r)
    ensures WorkersOf(s', r) && ReviewersOf(s', r) && OwedOf(s', r) && ReviewsOf(s', r)
  {
    ApprovalStage(s, s', v, r);
    forall u | u in s'.reviewers && s'.reviewers[u].run == r && s'.reviewers[u].Requeued?
      ensures s'.reviewers[u].mark.review in s'.owed
    {
      assert s.owed[s.reviewers[u].mark.review] == u;
    }
    forall id | id in s'.db.reviews && s'.db.reviews[id].run == r
      ensures Mark(id, s'.db.reviews[id].hook) in Pauses(s'.db, r) || AboutToAnnounce(s', r, Mark(id, s'.db.reviews[id].hook))
    {
      if AboutToAnnounce(s, r, Mark(id, s.db.reviews[id].hook)) {
      }
    }
  }

  lemma NotBroken(c: Config, s: State, r: nat)
    requires r in s.db.runs && RowOk(c, s.db, s.claims, r) && InHand(c, s, r)
    ensures !StageOf(LogOf(s.db, r)).kind.Broken?
  {
    match s.charge[r]
    case Nobody => assert RestsWell(c, s.db, r);
    case ByWorker(w) => assert WorkerAgrees(c, s.db, s.workers[w], r);
    case ByReviewer(u) => assert ReviewerAgrees(c, s.db, s.reviewers[u], r);
  }

  lemma LocalAnnounceApproval(c: Config, s: State, s': State, v: nat, r: nat)
    requires ReviewerAnnouncesApproval(s, v) == Some(s') && r == s.reviewers[v].run && RunOk(c, s, r)
    ensures RunOk(c, s', r)
  {
    NotBroken(c, s, r);
    ApprovalHand(c, s, s', v, r);
    ApprovalLog(c, s, s', v, r);
    ApprovalSide(s, s', v, r);
  }

  lemma AnnounceApprovalMoves(c: Config, s: State, s': State, v: nat, r: nat)
    requires ReviewerAnnouncesApproval(s, v) == Some(s') && r == s.reviewers[v].run
    requires RowOk(c, s.db, s.claims, r) && r in s.charge && ReviewersOf(s, r)
    ensures ReviewerMoved(s, s', v, r, s.reviewers[v].mark.review)
  {
    var m, ps := s.reviewers[v].mark, Pauses(s.db, r);
    var i :| 0 <= i < |s.db.runs[r].approved| && i < |ps| && ps[i] == m;
    assert s'.charge == s.charge[r := s'.charge[r]];
    assert s'.claims == s.claims[r := s'.claims[r]];
    assert s'.db.runs == s.db.runs[r := s'.db.runs[r]];
    assert s'.db.reviews == s.db.reviews[m.review := s'.db.reviews[m.review]];
  }

  lemma KeepsAnnounceApproval(c: Config, s: State, v: nat)
    requires Inv(c, s) && ReviewerAnnouncesApproval(s, v).Some?
    ensures Inv(c, ReviewerAnnouncesApproval(s, v).value)
    ensures Only(s, ReviewerAnnouncesApproval(s, v).value, s.reviewers[v].run)
  {
    var s', r := ReviewerAnnouncesApproval(s, v).value, s.reviewers[v].run;
    LocalAnnounceApproval(c, s, s', v, r);
    AnnounceApprovalMoves(c, s, s', v, r);
    KeepsReviewer(c, s, s', v, r, s.reviewers[v].mark.review);
  }

  // --- Submitting -----------------------------------------------------------------------

  lemma KeepsSubmit(c: Config, s: State, s': State)
    requires Inv(c, s)
    requires s' == s.(submits := s'.submits, receipts := s'.receipts)
    requires forall u :: u in s'.submits ==> s'.submits[u].deployment in c.deployments
    ensures Inv(c, s')
  {
    forall r | r in s'.db.runs
      ensures RunOk(c, s', r)
    {
      RunFrame(c, s, s', r);
    }
  }

  lemma OldRun(c: Config, s: State, s': State, u: nat, r: nat, q: nat)
    requires Homes(c, s) && SubmitInsert(c, s, u, r) == Some(s') && r in s'.db.runs
    requires q in s.db.runs && q != r && RunOk(c, s, q)
    ensures RunOk(c, s', q)
  {
    assert LogOf(s'.db, q) == LogOf(s.db, q);
    RunFrame(c, s, s', q);
  }

  lemma NewRun(c: Config, s: State, s': State, u: nat, r: nat)
    requires Homes(c, s) && SubmitInsert(c, s, u, r) == Some(s') && r in s'.db.runs
    ensures RunOk(c, s', r)
  {
    assert LogOf(s'.db, r) == [];
  }

  lemma KeepsInsert(c: Config, s: State, u: nat, r: nat)
    requires Inv(c, s) && SubmitInsert(c, s, u, r).Some?
    ensures Inv(c, SubmitInsert(c, s, u, r).value)
  {
    var s' := SubmitInsert(c, s, u, r).value;
    if r !in s'.db.runs {
      KeepsSubmit(c, s, s');
    } else {
      forall q | q in s'.db.runs
        ensures RunOk(c, s', q)
      {
        if q == r {
          NewRun(c, s, s', u, r);
        } else {
          OldRun(c, s, s', u, r, q);
        }
      }
    }
  }

  // --- Every careful step ------------------------------------------------------------------

  // A lookup moves nothing but the submits and their receipts.
  ghost predicate OnlySubmits(c: Config, s: State, s': State) {
    && s' == s.(submits := s'.submits, receipts := s'.receipts)
    && forall u :: u in s'.submits ==>
         s'.submits[u].deployment in c.deployments
         || (u in s.submits && s.submits[u].deployment == s'.submits[u].deployment)
  }

  lemma FirstLookup(c: Config, s: State, u: nat, d: string, k: Option<string>, q: string, found: Option<nat>)
    requires SubmitLookup(c, s, u, d, k, q, found).Some?
    ensures OnlySubmits(c, s, SubmitLookup(c, s, u, d, k, q, found).value)
  {
  }

  lemma SecondLookup(c: Config, s: State, u: nat, found: Option<nat>)
    requires SubmitSelect(s, u, found).Some?
    ensures OnlySubmits(c, s, SubmitSelect(s, u, found).value)
  {
  }

  lemma LookupShape(c: Config, s: State, l: Label)
    requires (l.Lookup? || l.SelectKey?) && Step(c, s, l).Some?
    ensures OnlySubmits(c, s, Step(c, s, l).value)
  {
    hide OnlySubmits, SubmitLookup, SubmitSelect, SubmitInsert, WorkerClaims, WorkerMarks,
         WorkerAnnouncesStart, WorkerOpensReview, WorkerWritesPause, WorkerAnnouncesPause, WorkerWritesBlock,
         WorkerAnnouncesBlock, WorkerExecutes, WorkerWritesEnd, WorkerAnnouncesEnd, WorkerWritesHandOver,
         WorkerAnnouncesHandOver, ReviewerResolves, ReviewerReadsRun, ReviewerRequeues,
         ReviewerAnnouncesApproval, ReviewerWritesDenial, ReviewerAnnouncesDenial;
    match l
    case Lookup(u, d, k, q, found) => FirstLookup(c, s, u, d, k, q, found);
    case SelectKey(u, found) => SecondLookup(c, s, u, found);
  }

  lemma SubmitsKnown(c: Config, s: State, s': State)
    requires Homes(c, s)
    requires forall u :: u in s'.submits ==>
               s'.submits[u].deployment in c.deployments
               || (u in s.submits && s.submits[u].deployment == s'.submits[u].deployment)
    ensures forall u :: u in s'.submits ==> s'.submits[u].deployment in c.deployments
  {
  }

  lemma KeepsLookup(c: Config, s: State, l: Label)
    requires Inv(c, s) && (l.Lookup? || l.SelectKey?) && Step(c, s, l).Some?
    ensures Inv(c, Step(c, s, l).value)
  {
    var s' := Step(c, s, l).value;
    LookupShape(c, s, l);
    SubmitsKnown(c, s, s');
    KeepsSubmit(c, s, s');
  }

  lemma SubmitKeepsInv(c: Config, s: State, l: Label)
    requires Inv(c, s) && Step(c, s, l).Some? && OfSubmit(l)
    ensures Inv(c, Step(c, s, l).value)
  {
    if l.Lookup? || l.SelectKey? {
      KeepsLookup(c, s, l);
    } else {
      KeepsInsert(c, s, l.submit, l.run);
    }
  }

  lemma ReviewKeepsInv(c: Config, s: State, l: Label)
    requires Inv(c, s) && Step(c, s, l).Some? && OfReview(l) && Careful(s, l)
    ensures Inv(c, Step(c, s, l).value)
    ensures RunOf(s, l).Some? && Only(s, Step(c, s, l).value, RunOf(s, l).value)
  {
    hide Inv, Only;
    match l
    case Resolve(v, id, approve) => KeepsResolve(c, s, v, id, approve);
    case ReadRun(v) => KeepsReadRun(c, s, v);
    case Requeue(v) => KeepsRequeue(c, s, v);
    case AnnounceApproval(v) => KeepsAnnounceApproval(c, s, v);
    case WriteDenial(v) => KeepsWriteDenial(c, s, v);
    case AnnounceDenial(v) => KeepsAnnounceDenial(c, s, v);
  }

  lemma AnnouncementKeepsInv(c: Config, s: State, l: Label)
    requires Inv(c, s) && Step(c, s, l).Some? && OfAnnouncement(l)
    ensures Inv(c, Step(c, s, l).value)
    ensures RunOf(s, l).Some? && Only(s, Step(c, s, l).value, RunOf(s, l).value)
  {
    hide Inv, Only;
    match l
    case AnnounceStart(w) => KeepsStart(c, s, w);
    case AnnouncePause(w) => KeepsAnnouncePause(c, s, w);
    case AnnounceBlock(w) => KeepsAnnounceBlock(c, s, w);
    case AnnounceEnd(w) => KeepsAnnounceEnd(c, s, w);
    case AnnounceHandOver(w) => KeepsAnnounceHandOver(c, s, w);
  }

  lemma WriteKeepsInv(c: Config, s: State, l: Label)
    requires Inv(c, s) && Step(c, s, l).Some? && !OfSubmit(l) && !OfReview(l) && !OfAnnouncement(l)
    ensures Inv(c, Step(c, s, l).value)
    ensures RunOf(s, l).Some? && Only(s, Step(c, s, l).value, RunOf(s, l).value)
  {
    hide Inv, Only;
    match l
    case Claim(w, r) => KeepsClaim(c, s, w, r);
    case MarkRunning(w) => KeepsMark(c, s, w);
    case OpenReview(w, id) => KeepsOpenReview(c, s, w, id);
    case WritePause(w) => KeepsWritePause(c, s, w);
    case WriteBlock(w) => KeepsWriteBlock(c, s, w);
    case Execute(w) => KeepsExecute(c, s, w);
    case WriteEnd(w, ok) => KeepsWriteEnd(c, s, w, ok);
    case WriteHandOver(w) => KeepsWriteHandOver(c, s, w);
  }

  lemma StepKeepsInv(c: Config, s: State, l: Label)
    requires Inv(c, s) && Step(c, s, l).Some? && Careful(s, l)
    ensures Inv(c, Step(c, s, l).value)
    ensures !OfSubmit(l) ==> RunOf(s, l).Some? && Only(s, Step(c, s, l).value, RunOf(s, l).value)
  {
    hide Inv, Only, Careful, Step;
    if OfSubmit(l) {
      SubmitKeepsInv(c, s, l);
    } else if OfReview(l) {
      ReviewKeepsInv(c, s, l);
    } else if OfAnnouncement(l) {
      AnnouncementKeepsInv(c, s, l);
    } else {
      WriteKeepsInv(c, s, l);
    }
  }

  lemma {:induction false} ExecutionKeepsInv(c: Config, s: State, ls: seq<Label>, patient: bool)
    requires Inv(c, s) && Legal(c, s, ls, patient)
    ensures After(c, s, ls).Some? && Inv(c, After(c, s, ls).value)
    decreases |ls|
  {
    hide Inv, Step, Careful, Patient;
    if |ls| > 0 {
      StepKeepsInv(c, s, ls[0]);
      ExecutionKeepsInv(c, Step(c, s, ls[0]).value, ls[1..], patient);
    }
  }
}
