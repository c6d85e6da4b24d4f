// Reviewer and submitter steps keep the invariant; a careful reviewer finds the run
// at rest.
module RunPreservedReview {
  import opened Outcomes
  import opened RunLog
  import opened RunTables
  import opened RunProtocol
  import opened RunInvariant
  import opened RunPreserved
  import opened RunPreservedLog

  // --- The pauses of a log -----------------------------------------------------

  lemma {:induction false} PausedInLog(log: seq<Event>, m: Mark)
    requires !StageOf(log).kind.Broken?
    ensures Paused(m) in log <==> m in StageOf(log).pauses
  {
    if |log| > 0 {
      var front, e := log[..|log| - 1], log[|log| - 1];
      assert log == front + [e];
      PausedInLog(front, m);
      var ps := StageOf(front).pauses;
      if e.Paused? {
        assert StageOf(log).pauses == ps + [e.mark];
      }
    }
  }

  // --- Resolving ----------------------------------------------------------------

  // A resolvable review is the last pause of a run in REVIEW that nobody has in hand.
  lemma ResolvableRestsOn(c: Config, s: State, id: nat, r: nat)
    requires Resolvable(s.db, id) && r == s.db.reviews[id].run && r in s.db.runs
    requires RowOk(c, s.db, s.claims, r) && InHand(c, s, r)
    ensures r in s.charge && s.charge[r] == Nobody && s.db.runs[r].status == REVIEW
    ensures LastPause(StageOf(LogOf(s.db, r)), Mark(id, s.db.reviews[id].hook))
  {
    var m, log := Mark(id, s.db.reviews[id].hook), LogOf(s.db, r);
    assert !StageOf(log).kind.Broken? by {
      match s.charge[r]
      case Nobody => assert RestsWell(c, s.db, r);
      case ByWorker(w) => assert WorkerAgrees(c, s.db, s.workers[w], r);
      case ByReviewer(v) => assert ReviewerAgrees(c, s.db, s.reviewers[v], r);
    }
    PausedInLog(log, m);
    var ps := StageOf(log).pauses;
    var i :| 0 <= i < |ps| && ps[i] == m;
    assert i >= |s.db.runs[r].approved|;
  }

  ghost predicate ReviewerMoved(s: State, s': State, v: nat, r: nat, id: nat) {
    && RunPatched(s, s', r)
    && s'.workers == s.workers
    && (v in s.reviewers ==> s.reviewers[v].run == r)
    && (|| s'.reviewers == s.reviewers - {v}
        || (v in s'.reviewers && s'.reviewers[v].run == r && s'.reviewers == s.reviewers[v := s'.reviewers[v]]))
    && id in s.db.reviews && s.db.reviews[id].run == r
    && (s'.owed == s.owed || s'.owed == s.owed - {id} || s'.owed == s.owed[id := v])
    && id in s'.db.reviews && s'.db.reviews[id].run == r
    && s'.db.reviews == s.db.reviews[id := s'.db.reviews[id]]
  }

  lemma ReviewerElsewhere(s: State, s': State, v: nat, r: nat, id: nat, q: nat)
    requires ReviewerMoved(s, s', v, r, id) && q in s.db.runs && q != r
    ensures SameRun(s, s', q) && SameActors(s, s', q) && SameReviews(s, s', q)
  {
    assert LogOf(s'.db, q) == LogOf(s.db, q);
  }

  lemma ReviewerGrows(s: State, s': State, v: nat, r: nat, id: nat)
    requires ReviewerMoved(s, s', v, r, id)
    ensures s'.db.runs.Keys == s.db.runs.Keys && r in s.db.runs
  {
  }

  lemma ReviewerOnly(s: State, s': State, v: nat, r: nat, id: nat)
    requires ReviewerMoved(s, s', v, r, id)
    ensures Only(s, s', r)
  {
    hide ReviewerMoved, SameRun, SameActors, SameReviews;
    forall q | q in s.db.runs && q != r
      ensures SameRun(s, s', q) && SameActors(s, s', q) && SameReviews(s, s', q)
    {
      ReviewerElsewhere(s, s', v, r, id, q);
    }
    ReviewerGrows(s, s', v, r, id);
  }

  lemma ReviewerHomes(c: Config, s: State, s': State, v: nat, r: nat, id: nat)
    requires Homes(c, s) && ReviewerMoved(s, s', v, r, id)
    ensures Homes(c, s')
  {
  }

  lemma KeepsReviewer(c: Config, s: State, s': State, v: nat, r: nat, id: nat)
    requires Inv(c, s) && ReviewerMoved(s, s', v, r, id) && RunOk(c, s', r)
    ensures Inv(c, s') && Only(s, s', r)
  {
    ReviewerOnly(s, s', v, r, id);
    ReviewerHomes(c, s, s', v, r, id);
    Compose(c, s, s', r);
  }

  // Reviewer steps that leave the log and the approvals as they are.
  ghost predicate QuietReview(s: State, s': State, v: nat, r: nat, id: nat) {
    && ReviewerMoved(s, s', v, r, id)
    && v in s'.reviewers && !s'.reviewers[v].Requeued?
    && s'.charge[r] == ByReviewer(v)
    && LogOf(s'.db, r) == LogOf(s.db, r)
    && s'.db.runs[r].approved == s.db.runs[r].approved
    && s'.owed == s.owed
    && s'.db.reviews[id].hook == s.db.reviews[id].hook
  }

  lemma QuietSide(s: State, s': State, v: nat, r: nat, id: nat)
    requires QuietReview(s, s', v, r, id)
    requires r in s.charge && (s.charge[r] == Nobody || (s.charge[r] == ByReviewer(v) && v in s.reviewers && !s.reviewers[v].Requeued?))
    requires s.charge[r] == Nobody ==> v !in s.reviewers
    requires WorkersOf(s, r) && ReviewersOf(s, r) && OwedOf(s, r) && ReviewsOf(s, r)
    ensures WorkersOf(s', r) && ReviewersOf(s', r) && OwedOf(s', r) && ReviewsOf(s', r)
  {
    assert ReviewsOf(s', r) by {
      forall i | i in s'.db.reviews && s'.db.reviews[i].run == r
        ensures Mark(i, s'.db.reviews[i].hook) in Pauses(s'.db, r)
      {
        assert i in s.db.reviews && !AboutToAnnounce(s, r, Mark(i, s.db.reviews[i].hook));
      }
    }
  }

  lemma ResolveMoves(c: Config, s: State, s': State, v: nat, r: nat, id: nat, approve: bool)
    requires ReviewerResolves(s, v, id, approve) == Some(s') && r == s.db.reviews[id].run && r in s.db.runs
    requires RowOk(c, s.db, s.claims, r)
    ensures QuietReview(s, s', v, r, id)
  {
    assert s'.claims == s.claims[r := s'.claims[r]];
    assert s'.db.runs == s.db.runs[r := s'.db.runs[r]];
  }

  lemma ResolveRow(c: Config, s: State, s': State, v: nat, r: nat, id: nat, approve: bool)
    requires ReviewerResolves(s, v, id, approve) == Some(s') && r == s.db.reviews[id].run
    requires r in s.db.runs && RowOk(c, s.db, s.claims, r) && s.db.reviews[id].state == Waiting
    ensures RowOk(c, s'.db, s'.claims, r)
  {
  }

  lemma ResolveHand(c: Config, s: State, s': State, v: nat, r: nat, id: nat, approve: bool)
    requires ReviewerResolves(s, v, id, approve) == Some(s') && r == s.db.reviews[id].run
    requires r in s.db.runs && RowOk(c, s.db, s.claims, r) && InHand(c, s, r) && Resolvable(s.db, id)
    ensures RowOk(c, s'.db, s'.claims, r) && InHand(c, s', r)
  {
    ResolvableRestsOn(c, s, id, r);
    ResolveRow(c, s, s', v, r, id, approve);
    assert ReviewerAgrees(c, s'.db, s'.reviewers[v], r);
  }

  lemma LocalResolve(c: Config, s: State, s': State, v: nat, r: nat, id: nat, approve: bool)
    requires ReviewerResolves(s, v, id, approve) == Some(s') && r == s.db.reviews[id].run
    requires r in s.db.runs && RunOk(c, s, r) && Resolvable(s.db, id)
    ensures ReviewerMoved(s, s', v, r, id) && RunOk(c, s', r)
  {
    hide RowOk, InHand, LogOk, WorkersOf, ReviewersOf, OwedOf, ReviewsOf, Resolvable;
    ResolvableRestsOn(c, s, id, r);
    ResolveMoves(c, s, s', v, r, id, approve);
    QuietSide(s, s', v, r, id);
    ResolveHand(c, s, s', v, r, id, approve);
    LogSame(s, s', r);
  }

  lemma KeepsResolve(c: Config, s: State, v: nat, id: nat, approve: bool)
    requires Inv(c, s) && ReviewerResolves(s, v, id, approve).Some? && Resolvable(s.db, id)
    ensures Inv(c, ReviewerResolves(s, v, id, approve).value)
    ensures Only(s, ReviewerResolves(s, v, id, approve).value, s.db.reviews[id].run)
  {
    var s', r := ReviewerResolves(s, v, id, approve).value, s.db.reviews[id].run;
    LocalResolve(c, s, s', v, r, id, approve);
    KeepsReviewer(c, s, s', v, r, id);
  }

  // --- Reading the run, denying ---------------------------------------------------

  lemma ReviewerInCharge(c: Config, s: State, v: nat, r: nat)
    requires v in s.reviewers && s.reviewers[v].run == r && !s.reviewers[v].Requeued?
    requires r in s.db.runs && RowOk(c, s.db, s.claims, r) && InHand(c, s, r) && ReviewersOf(s, r)
    ensures s.charge[r] == ByReviewer(v) && ReviewerAgrees(c, s.db, s.reviewers[v], r)
    ensures s.reviewers[v].mark.review in s.db.reviews && s.db.reviews[s.reviewers[v].mark.review].run == r
  {
  }

  lemma LocalReadRun(c: Config, s: State, s': State, v: nat, r: nat)
    requires ReviewerReadsRun(s, v) == Some(s') && r == s.reviewers[v].run && RunOk(c, s, r)
    ensures ReviewerMoved(s, s', v, r, s.reviewers[v].mark.review) && RunOk(c, s', r)
  {
    var id := s.reviewers[v].mark.review;
    ReviewerInCharge(c, s, v, r);
    assert s'.charge == s.charge[r := s'.charge[r]];
    assert s'.claims == s.claims[r := s'.claims[r]];
    assert s'.db.runs == s.db.runs[r := s'.db.runs[r]];
    assert s'.db.reviews == s.db.reviews[id := s'.db.reviews[id]];
    QuietSide(s, s', v, r, id);
    LogSame(s, s', r);
    assert ReviewerAgrees(c, s'.db, s'.reviewers[v], r);
    assert InHand(c, s', r);
  }

  lemma KeepsReadRun(c: Config, s: State, v: nat)
    requires Inv(c, s) && ReviewerReadsRun(s, v).Some?
    ensures Inv(c, ReviewerReadsRun(s, v).value)
    ensures Only(s, ReviewerReadsRun(s, v).value, s.reviewers[v].run)
  {
    var s', r := ReviewerReadsRun(s, v).value, s.reviewers[v].run;
    LocalReadRun(c, s, s', v, r);
    KeepsReviewer(c, s, s', v, r, s.reviewers[v].mark.review);
  }

  lemma LocalWriteDenial(c: Config, s: State, s': State, v: nat, r: nat)
    requires ReviewerWritesDenial(s, v) == Some(s') && r == s.reviewers[v].run && RunOk(c, s, r)
    ensures ReviewerMoved(s, s', v, r, s.reviewers[v].mark.review) && RunOk(c, s', r)
  {
    var id := s.reviewers[v].mark.review;
    ReviewerInCharge(c, s, v, r);
    assert s'.charge == s.charge[r := s'.charge[r]];
    assert s'.claims == s.claims[r := s'.claims[r]];
    assert s'.db.reviews == s.db.reviews[id := s'.db.reviews[id]];
    QuietSide(s, s', v, r, id);
    LogSame(s, s', r);
    StatusRow(c, s.db, s.claims, r, BLOCKED);
    assert ReviewerAgrees(c, s'.db, s'.reviewers[v], r);
    assert InHand(c, s', r);
  }

  lemma KeepsWriteDenial(c: Config, s: State, v: nat)
    requires Inv(c, s) && ReviewerWritesDenial(s, v).Some?
    ensures Inv(c, ReviewerWritesDenial(s, v).value)
    ensures Only(s, ReviewerWritesDenial(s, v).value, s.reviewers[v].run)
  {
    var s', r := ReviewerWritesDenial(s, v).value, s.reviewers[v].run;
    LocalWriteDenial(c, s, s', v, r);
    KeepsReviewer(c, s, s', v, r, s.reviewers[v].mark.review);
  }

  // The pause being denied is the last one, which was not approved.
  lemma DeniedIsUnsettled(c: Config, s: State, v: nat, r: nat)
    requires r in s.db.runs && RowOk(c, s.db, s.claims, r)
    requires v in s.reviewers && ReviewerAgrees(c, s.db, s.reviewers[v], r)
    ensures s.reviewers[v].mark in Pauses(s.db, r)
    ensures s.reviewers[v].mark !in Pauses(s.db, r)[..|s.db.runs[r].approved|]
  {
    var k := |s.db.runs[r].approved|;
    assert Pauses(s.db, r)[k] == s.reviewers[v].mark;
  }

  // Only a closed log holds a denial.
  lemma {:induction false} DeniedInLog(log: seq<Event>, m: Mark)
    requires !StageOf(log).kind.Broken? && Denied(m) in log
    ensures StageOf(log).kind == Closed(BLOCKED) && LastPause(StageOf(log), m)
  {
    var front, e := log[..|log| - 1], log[|log| - 1];
    assert log == front + [e];
    if Denied(m) in front {
      DeniedInLog(front, m);
    }
  }

  // The row, the log and the charge after a denial was announced.
  lemma DenialRow(c: Config, s: State, s': State, v: nat, r: nat)
    requires ReviewerAnnouncesDenial(s, v) == Some(s') && r == s.reviewers[v].run && RunOk(c, s, r)
    ensures RowOk(c, s'.db, s'.claims, r) && InHand(c, s', r) && LogOk(s', r)
    ensures r in s.charge && s.charge[r] == ByReviewer(v) && Pauses(s'.db, r) == Pauses(s.db, r)
  {
    hide WorkerAgrees, WorkersOf, OwedOf, ReviewsOf;
    var m := s.reviewers[v].mark;
    ReviewerInCharge(c, s, v, r);
    LogOfAppend(s.db, r, Denied(m));
    assert s'.claims == s.claims[r := s'.claims[r]];
    RowAfterEvent(c, s.db, s.claims, r, Denied(m));
    DeniedIsUnsettled(c, s, v, r);
    LogAfterEvent(s, s', r, Denied(m));
    assert RestsWell(c, s'.db, r);
  }

  lemma DenialMoves(c: Config, s: State, s': State, v: nat, r: nat)
    requires ReviewerAnnouncesDenial(s, v) == Some(s') && r == s.reviewers[v].run && RunOk(c, s, r)
    ensures ReviewerMoved(s, s', v, r, s.reviewers[v].mark.review)
  {
    hide WorkerAgrees, WorkersOf, OwedOf, ReviewsOf, LogOk;
    var id := s.reviewers[v].mark.review;
    ReviewerInCharge(c, s, v, r);
    assert s'.claims == s.claims[r := s'.claims[r]];
    assert s'.db.runs == s.db.runs[r := s'.db.runs[r]];
    assert s'.db.reviews == s.db.reviews[id := s'.db.reviews[id]];
  }

  lemma DenialSide(s: State, s': State, v: nat, r: nat)
    requires ReviewerAnnouncesDenial(s, v) == Some(s') && r == s.reviewers[v].run
    requires r in s.charge && s.charge[r] == ByReviewer(v)
    requires Pauses(s'.db, r) == Pauses(s.db, r)
    requires WorkersOf(s, r) && ReviewersOf(s, r) && OwedOf(s, r) && ReviewsOf(s, r)
    ensures WorkersOf(s', r) && ReviewersOf(s', r) && OwedOf(s', r) && ReviewsOf(s', r)
  {
    forall id | id in s'.db.reviews && s'.db.reviews[id].run == r
      ensures Mark(id, s'.db.reviews[id].hook) in Pauses(s'.db, r)
    {
      assert !AboutToAnnounce(s, r, Mark(id, s.db.reviews[id].hook));
    }
  }

  lemma LocalAnnounceDenial(c: Config, s: State, s': State, v: nat, r: nat)
    requires ReviewerAnnouncesDenial(s, v) == Some(s') && r == s.reviewers[v].run && RunOk(c, s, r)
    ensures ReviewerMoved(s, s', v, r, s.reviewers[v].mark.review) && RunOk(c, s', r)
  {
    hide WorkerAgrees, RowOk, InHand, LogOk, WorkersOf, ReviewersOf, OwedOf, ReviewsOf, RestsWell;
    DenialMoves(c, s, s', v, r);
    DenialRow(c, s, s', v, r);
    DenialSide(s, s', v, r);
  }

  lemma KeepsAnnounceDenial(c: Config, s: State, v: nat)
    requires Inv(c, s) && ReviewerAnnouncesDenial(s, v).Some?
    ensures Inv(c, ReviewerAnnouncesDenial(s, v).value)
    ensures Only(s, ReviewerAnnouncesDenial(s, v).value, s.reviewers[v].run)
  {
    var s', r := ReviewerAnnouncesDenial(s, v).value, s.reviewers[v].run;
    LocalAnnounceDenial(c, s, s', v, r);
    KeepsReviewer(c, s, s', v, r, s.reviewers[v].mark.review);
  }
}
