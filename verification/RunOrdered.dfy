// With patient workers too, every log is in order: a prefix of
// (started paused approved)* started (end | paused denied).
module RunOrdered {
  import opened Outcomes
  import opened RunLog
  import opened RunTables
  import opened RunProtocol
  import opened RunInvariant
  import opened RunPreserved
  import opened RunPreservedLog
  import opened RunPreservedReview
  import opened RunPreservedApproval
  import opened RunTheorems

  predicate EndsWith(log: seq<Event>, e: Event) {
    |log| > 0 && log[|log| - 1] == e
  }

  // The log is in order, and an approval that is owed comes next.
  ghost predicate OrderedAt(s: State, r: nat) {
    && OrderedLog(LogOf(s.db, r))
    && forall id :: id in s.owed && id in s.db.reviews && s.db.reviews[id].run == r ==>
         EndsWith(LogOf(s.db, r), Paused(Mark(id, s.db.reviews[id].hook)))
  }

  ghost predicate Ordered(s: State) {
    forall r :: r in s.db.runs ==> OrderedAt(s, r)
  }

  // --- The last event of a log ---------------------------------------------------

  // A pause that is the last one and was not approved ends the log.
  lemma UnsettledEnds(log: seq<Event>, m: Mark)
    requires OrderedLog(log) && StageOf(log).kind.Ready? && LastPause(StageOf(log), m)
    requires Approved(m) !in log
    ensures EndsWith(log, Paused(m))
  {
    OrderedStage(log);
  }

  // If every pause was approved, the log is empty or ends with an approval.
  lemma SettledEnds(log: seq<Event>)
    requires OrderedLog(log) && StageOf(log).kind.Ready?
    requires DistinctReviews(StageOf(log).pauses)
    requires var ps := StageOf(log).pauses; |ps| > 0 ==> Approved(ps[|ps| - 1]) in log
    ensures Follows(log, Started)
  {
    OrderedStage(log);
    if |log| > 0 && log[|log| - 1].Paused? {
      var m, front := log[|log| - 1].mark, log[..|log| - 1];
      OrderedPrefix(log);
      OrderedStage(front);
      var earlier, ps := StageOf(front).pauses, StageOf(log).pauses;
      assert forall i :: 0 <= i < |earlier| ==> earlier[i] == ps[i] && ps[i].review != ps[|ps| - 1].review;
      ApprovedIsPaused(log, m);
      assert false;
    }
  }

  // --- Which steps append -----------------------------------------------------------

  predicate Appends(l: Label) {
    OfAnnouncement(l) || l.AnnounceApproval? || l.AnnounceDenial?
  }

  lemma KeptBySubmit(c: Config, s: State, l: Label)
    requires Step(c, s, l).Some? && OfSubmit(l)
    ensures var s' := Step(c, s, l).value;
            s'.db.outbox == s.db.outbox && s'.owed == s.owed && s'.db.reviews == s.db.reviews
  {
    hide Finds, KeyTaken, SubmitLookup, SubmitSelect, WorkerClaims, WorkerMarks, WorkerWritesPause,
         WorkerWritesBlock, WorkerOpensReview, WorkerExecutes, WorkerWritesEnd, WorkerWritesHandOver,
         WorkerAnnouncesStart, WorkerAnnouncesPause, WorkerAnnouncesBlock, WorkerAnnouncesEnd,
         WorkerAnnouncesHandOver, ReviewerResolves, ReviewerReadsRun, ReviewerRequeues,
         ReviewerAnnouncesApproval, ReviewerWritesDenial, ReviewerAnnouncesDenial;
    if !l.Insert? {
      LookupShape(c, s, l);
    }
  }

  lemma KeptByReview(c: Config, s: State, l: Label)
    requires Step(c, s, l).Some? && OfReview(l) && !Appends(l) && !l.Requeue?
    ensures var s' := Step(c, s, l).value;
            && s'.db.outbox == s.db.outbox && s'.owed == s.owed
            && s'.db.reviews.Keys == s.db.reviews.Keys
            && forall id :: id in s.db.reviews ==>
                 s'.db.reviews[id].run == s.db.reviews[id].run && s'.db.reviews[id].hook == s.db.reviews[id].hook
  {
  }

  lemma KeptByWorker(c: Config, s: State, l: Label)
    requires Step(c, s, l).Some? && !OfSubmit(l) && !OfReview(l) && !OfAnnouncement(l)
    ensures var s' := Step(c, s, l).value;
            && s'.db.outbox == s.db.outbox && s'.owed == s.owed
            && forall id :: id in s.db.reviews ==> id in s'.db.reviews && s'.db.reviews[id] == s.db.reviews[id]
  {
  }

  // Such a step keeps the outbox, what is owed, and which run and hook a review is of.
  lemma KeptTables(c: Config, s: State, l: Label)
    requires Step(c, s, l).Some? && !Appends(l) && !l.Requeue?
    ensures var s' := Step(c, s, l).value;
            && s'.db.outbox == s.db.outbox
            && s'.owed == s.owed
            && forall id :: id in s.db.reviews ==>
                 id in s'.db.reviews && s'.db.reviews[id].run == s.db.reviews[id].run && s'.db.reviews[id].hook == s.db.reviews[id].hook
  {
    if OfSubmit(l) {
      KeptBySubmit(c, s, l);
    } else if OfReview(l) {
      KeptByReview(c, s, l);
    } else {
      KeptByWorker(c, s, l);
    }
  }

  // A run that does not exist has no log, and nothing is owed on it.
  lemma NothingLogged(c: Config, s: State, r: nat)
    requires Homes(c, s) && r !in s.db.runs
    ensures OrderedAt(s, r)
  {
  }

  lemma QuietLogs(c: Config, s: State, l: Label, r: nat)
    requires Homes(c, s) && Step(c, s, l).Some? && !Appends(l) && !l.Requeue?
    requires r in s.db.runs ==> OrderedAt(s, r)
    requires r in Step(c, s, l).value.db.runs
    ensures OrderedAt(Step(c, s, l).value, r)
  {
    hide Step, OrderedLog;
    var s' := Step(c, s, l).value;
    KeptTables(c, s, l);
    assert LogOf(s'.db, r) == LogOf(s.db, r);
    if r !in s.db.runs {
      NothingLogged(c, s, r);
    }
  }

  // --- Appending in order -----------------------------------------------------------------

  lemma AppendOrdered(s: State, s': State, r: nat, e: Event)
    requires OrderedAt(s, r) && Follows(LogOf(s.db, r), e)
    requires LogOf(s'.db, r) == LogOf(s.db, r) + [e]
    requires forall id :: id in s'.owed && id in s'.db.reviews ==> s'.db.reviews[id].run != r
    ensures OrderedAt(s', r)
  {
    OrderedAppend(LogOf(s.db, r), e);
  }

  lemma OtherOrdered(s: State, s': State, q: nat)
    requires OrderedAt(s, q) && LogOf(s'.db, q) == LogOf(s.db, q)
    requires s'.db.reviews == s.db.reviews
    requires forall id :: id in s'.owed && id in s'.db.reviews && s'.db.reviews[id].run == q ==> id in s.owed
    ensures OrderedAt(s', q)
  {
  }

  // Approvals of the run that a reviewer has written and not announced yet.
  ghost predicate ApprovalOwed(s: State, r: nat) {
    exists id :: id in s.owed && id in s.db.reviews && s.db.reviews[id].run == r
  }

  lemma OwedIsUntold(c: Config, s: State, r: nat, id: nat)
    requires r in s.db.runs && RowOk(c, s.db, s.claims, r) && LogOk(s, r) && ReviewersOf(s, r) && OwedOf(s, r)
    requires id in s.owed && id in s.db.reviews && s.db.reviews[id].run == r
    ensures Untold(s.db, r)
  {
    var m, ps := s.reviewers[s.owed[id]].mark, Pauses(s.db, r);
    var i :| 0 <= i < |s.db.runs[r].approved| && i < |ps| && ps[i] == m;
    assert ReviewIs(s.db, ps[i], r, Accepted);
    assert Mark(id, s.db.reviews[id].hook) == m;
  }

  lemma UntoldIsOwed(c: Config, s: State, r: nat, id: nat)
    requires r in s.db.runs && RowOk(c, s.db, s.claims, r) && LogOk(s, r) && ReviewsOf(s, r)
    requires |Pauses(s.db, r)| == |s.db.runs[r].approved|
    requires id in s.db.reviews && s.db.reviews[id].run == r && !AboutToAnnounce(s, r, Mark(id, s.db.reviews[id].hook))
    requires Approved(Mark(id, s.db.reviews[id].hook)) !in LogOf(s.db, r)
    ensures ApprovalOwed(s, r)
  {
    var ps := Pauses(s.db, r);
    var i :| 0 <= i < |ps| && ps[i] == Mark(id, s.db.reviews[id].hook);
    assert ps[i].review in s.owed;
  }

  // When a worker is about to announce the start of a run, the approvals still to be
  // announced are those that the review queue and the log show.
  lemma OwedIffUntold(c: Config, s: State, w: nat, r: nat)
    requires WorkerAnnouncesStart(s, w).Some? && r == s.workers[w].run && RunOk(c, s, r)
    ensures ApprovalOwed(s, r) <==> Untold(s.db, r)
  {
    assert WorkerAgrees(c, s.db, s.workers[w], r);
    if ApprovalOwed(s, r) {
      var id :| id in s.owed && id in s.db.reviews && s.db.reviews[id].run == r;
      OwedIsUntold(c, s, r, id);
    }
    if Untold(s.db, r) {
      var id :| id in s.db.reviews && s.db.reviews[id].run == r && s.db.reviews[id].state == Accepted
                && Approved(Mark(id, s.db.reviews[id].hook)) !in LogOf(s.db, r);
      assert !AboutToAnnounce(s, r, Mark(id, s.db.reviews[id].hook));
      UntoldIsOwed(c, s, r, id);
    }
  }

  // The start of a run whose approvals are all announced follows its log.
  lemma StartFollows(c: Config, s: State, w: nat, r: nat)
    requires WorkerAnnouncesStart(s, w).Some? && r == s.workers[w].run && RunOk(c, s, r) && OrderedAt(s, r)
    requires !ApprovalOwed(s, r)
    ensures Follows(LogOf(s.db, r), Started)
  {
    var log, k := LogOf(s.db, r), |s.db.runs[r].approved|;
    assert WorkerAgrees(c, s.db, s.workers[w], r);
    var ps := StageOf(log).pauses;
    if k > 0 {
      assert ps[k - 1].review in s.db.reviews && ps[k - 1].review !in s.owed;
    }
    SettledEnds(log);
  }

  // While a worker has started the run, its log ends with the start and nothing is owed.
  lemma LiveFollows(c: Config, s: State, w: nat, r: nat)
    requires w in s.workers && s.workers[w].run == r && r in s.db.runs && RunOk(c, s, r) && OrderedAt(s, r)
    requires s.workers[w].PauseWritten? || s.workers[w].BlockWritten? || s.workers[w].EndWritten? || s.workers[w].HandOverWritten?
    ensures EndsWith(LogOf(s.db, r), Started)
    ensures forall id :: id in s.owed && id in s.db.reviews ==> s.db.reviews[id].run != r
  {
    assert WorkerAgrees(c, s.db, s.workers[w], r);
    OrderedStage(LogOf(s.db, r));
  }

  // The pause a reviewer decides ends the log, and nothing is owed on the run.
  lemma RestingPauseEnds(c: Config, s: State, v: nat, r: nat)
    requires r in s.db.runs && v in s.reviewers && OrderedAt(s, r)
    requires RowOk(c, s.db, s.claims, r) && LogOk(s, r) && ReviewersOf(s, r) && OwedOf(s, r)
    requires ReviewerAgrees(c, s.db, s.reviewers[v], r)
    ensures EndsWith(LogOf(s.db, r), Paused(s.reviewers[v].mark))
    ensures forall id :: id in s.owed && id in s.db.reviews ==> s.db.reviews[id].run != r
  {
    var m, log, k := s.reviewers[v].mark, LogOf(s.db, r), |s.db.runs[r].approved|;
    var ps := StageOf(log).pauses;
    assert ps[k] == m;
    UnsettledEnds(log, m);
    assert ps[k].review == m.review;
  }

  lemma DenialFollows(c: Config, s: State, v: nat, r: nat)
    requires ReviewerAnnouncesDenial(s, v).Some? && r == s.reviewers[v].run && RunOk(c, s, r) && OrderedAt(s, r)
    ensures Follows(LogOf(s.db, r), Denied(s.reviewers[v].mark))
    ensures forall id :: id in s.owed && id in s.db.reviews ==> s.db.reviews[id].run != r
  {
    ReviewerInCharge(c, s, v, r);
    RestingPauseEnds(c, s, v, r);
  }

  // --- Every step keeps the order ----------------------------------------------------------

  // An append on r keeps the order of the other logs.
  lemma OrderOnOne(s: State, s': State, r: nat, e: Event)
    requires Ordered(s) && s'.db.runs == s.db.runs && r in s.db.runs && s'.db.reviews == s.db.reviews
    requires s'.db.outbox == s.db.outbox[r := LogOf(s.db, r) + [e]]
    requires forall id :: id in s'.owed ==> id in s.owed
    requires OrderedAt(s', r)
    ensures Ordered(s')
  {
    forall q | q in s'.db.runs
      ensures OrderedAt(s', q)
    {
      if q != r {
        assert LogOf(s'.db, q) == LogOf(s.db, q);
        OtherOrdered(s, s', q);
      }
    }
  }

  lemma StartLocal(c: Config, s: State, s': State, w: nat, r: nat)
    requires WorkerAnnouncesStart(s, w) == Some(s') && r == s.workers[w].run && RunOk(c, s, r) && OrderedAt(s, r)
    requires !ApprovalOwed(s, r)
    ensures OrderedAt(s', r)
  {
    StartFollows(c, s, w, r);
    AppendOrdered(s, s', r, Started);
  }

  lemma StartKeepsOrder(c: Config, s: State, w: nat)
    requires Inv(c, s) && Ordered(s) && WorkerAnnouncesStart(s, w).Some?
    requires !Untold(s.db, s.workers[w].run)
    ensures Ordered(WorkerAnnouncesStart(s, w).value)
  {
    var s', r := WorkerAnnouncesStart(s, w).value, s.workers[w].run;
    OwedIffUntold(c, s, w, r);
    StartLocal(c, s, s', w, r);
    OrderOnOne(s, s', r, Started);
  }

  lemma LeaveLocal(c: Config, s: State, w: nat, r: nat, e: Event)
    requires At(s, w) && r == s.workers[w].run && RunOk(c, s, r) && OrderedAt(s, r)
    requires s.workers[w].PauseWritten? || s.workers[w].BlockWritten? || s.workers[w].EndWritten? || s.workers[w].HandOverWritten?
    requires e.Paused? || Ends(e)
    ensures OrderedAt(Leaves(s, w, e), r)
  {
    LiveFollows(c, s, w, r);
    AppendOrdered(s, Leaves(s, w, e), r, e);
  }

  lemma LeaveKeepsOrder(c: Config, s: State, w: nat, e: Event)
    requires Inv(c, s) && Ordered(s) && At(s, w)
    requires s.workers[w].PauseWritten? || s.workers[w].BlockWritten? || s.workers[w].EndWritten? || s.workers[w].HandOverWritten?
    requires e.Paused? || Ends(e)
    ensures Ordered(Leaves(s, w, e))
  {
    LeaveLocal(c, s, w, s.workers[w].run, e);
    OrderOnOne(s, Leaves(s, w, e), s.workers[w].run, e);
  }

  lemma DenialLocal(c: Config, s: State, s': State, v: nat, r: nat)
    requires ReviewerAnnouncesDenial(s, v) == Some(s') && r == s.reviewers[v].run && RunOk(c, s, r) && OrderedAt(s, r)
    ensures OrderedAt(s', r)
  {
    DenialFollows(c, s, v, r);
    AppendOrdered(s, s', r, Denied(s.reviewers[v].mark));
  }

  lemma DenialKeepsOrder(c: Config, s: State, v: nat)
    requires Inv(c, s) && Ordered(s) && ReviewerAnnouncesDenial(s, v).Some?
    ensures Ordered(ReviewerAnnouncesDenial(s, v).value)
  {
    var s', r := ReviewerAnnouncesDenial(s, v).value, s.reviewers[v].run;
    DenialLocal(c, s, s', v, r);
    OrderOnOne(s, s', r, Denied(s.reviewers[v].mark));
  }

  lemma OwedComesNext(c: Config, s: State, v: nat, r: nat)
    requires ReviewerAnnouncesApproval(s, v).Some? && r == s.reviewers[v].run && RunOk(c, s, r) && OrderedAt(s, r)
    ensures Follows(LogOf(s.db, r), Approved(s.reviewers[v].mark))
    ensures forall id :: id in s.owed && id in s.db.reviews && s.db.reviews[id].run == r ==> id == s.reviewers[v].mark.review
  {
    var m, ps := s.reviewers[v].mark, Pauses(s.db, r);
    var i :| 0 <= i < |s.db.runs[r].approved| && i < |ps| && ps[i] == m;
    assert ReviewIs(s.db, ps[i], r, Accepted);
    assert m.review in s.owed && s.db.reviews[m.review] == ReviewRow(r, m.hook, Accepted);
  }

  lemma ApprovalLocal(c: Config, s: State, s': State, v: nat, r: nat)
    requires ReviewerAnnouncesApproval(s, v) == Some(s') && r == s.reviewers[v].run && RunOk(c, s, r) && OrderedAt(s, r)
    ensures OrderedAt(s', r)
  {
    OwedComesNext(c, s, v, r);
    AppendOrdered(s, s', r, Approved(s.reviewers[v].mark));
  }

  lemma ApprovalKeepsOrder(c: Config, s: State, v: nat)
    requires Inv(c, s) && Ordered(s) && ReviewerAnnouncesApproval(s, v).Some?
    ensures Ordered(ReviewerAnnouncesApproval(s, v).value)
  {
    var s', r := ReviewerAnnouncesApproval(s, v).value, s.reviewers[v].run;
    ApprovalLocal(c, s, s', v, r);
    OrderOnOne(s, s', r, Approved(s.reviewers[v].mark));
  }

  lemma RequeueLocal(c: Config, s: State, s': State, v: nat, r: nat)
    requires ReviewerRequeues(s, v) == Some(s') && r == s.reviewers[v].run && RunOk(c, s, r) && OrderedAt(s, r)
    ensures OrderedAt(s', r)
    ensures s.reviewers[v].mark.review in s.db.reviews && s.db.reviews[s.reviewers[v].mark.review].run == r
  {
    ReviewerInCharge(c, s, v, r);
    RestingPauseEnds(c, s, v, r);
  }

  lemma RequeueOthers(s: State, s': State, v: nat, r: nat)
    requires Ordered(s) && ReviewerRequeues(s, v) == Some(s') && r == s.reviewers[v].run && OrderedAt(s', r)
    requires s.reviewers[v].mark.review in s.db.reviews && s.db.reviews[s.reviewers[v].mark.review].run == r
    ensures Ordered(s')
  {
    forall q | q in s'.db.runs
      ensures OrderedAt(s', q)
    {
      if q != r {
        OtherOrdered(s, s', q);
      }
    }
  }

  lemma RequeueKeepsOrder(c: Config, s: State, v: nat)
    requires Inv(c, s) && Ordered(s) && ReviewerRequeues(s, v).Some?
    ensures Ordered(ReviewerRequeues(s, v).value)
  {
    var s', r := ReviewerRequeues(s, v).value, s.reviewers[v].run;
    RequeueLocal(c, s, s', v, r);
    RequeueOthers(s, s', v, r);
  }

  lemma OthersKeepOrder(c: Config, s: State, l: Label)
    requires Inv(c, s) && Ordered(s) && Step(c, s, l).Some? && !Appends(l) && !l.Requeue?
    ensures Ordered(Step(c, s, l).value)
  {
    forall r | r in Step(c, s, l).value.db.runs
      ensures OrderedAt(Step(c, s, l).value, r)
    {
      QuietLogs(c, s, l, r);
    }
  }

  lemma StepKeepsOrder(c: Config, s: State, l: Label)
    requires Inv(c, s) && Ordered(s) && Step(c, s, l).Some? && Careful(s, l) && Patient(s, l)
    ensures Ordered(Step(c, s, l).value)
  {
    if OfAnnouncement(l) {
      match l
      case AnnounceStart(w) => StartKeepsOrder(c, s, w);
      case AnnouncePause(w) => LeaveKeepsOrder(c, s, w, Paused(s.workers[w].mark));
      case AnnounceBlock(w) => LeaveKeepsOrder(c, s, w, HookBlocked(s.workers[w].hook));
      case AnnounceEnd(w) => LeaveKeepsOrder(c, s, w, Finished(s.workers[w].ok));
      case AnnounceHandOver(w) => LeaveKeepsOrder(c, s, w, TemporalStarted);
    } else if l.AnnounceApproval? {
      ApprovalKeepsOrder(c, s, l.reviewer);
    } else if l.AnnounceDenial? {
      DenialKeepsOrder(c, s, l.reviewer);
    } else if l.Requeue? {
      RequeueKeepsOrder(c, s, l.reviewer);
    } else {
      OthersKeepOrder(c, s, l);
    }
  }

  lemma {:induction false} ExecutionKeepsOrder(c: Config, s: State, ls: seq<Label>)
    requires Inv(c, s) && Ordered(s) && Legal(c, s, ls, true)
    ensures After(c, s, ls).Some? && Inv(c, After(c, s, ls).value) && Ordered(After(c, s, ls).value)
    decreases |ls|
  {
    if |ls| > 0 {
      StepKeepsInv(c, s, ls[0]);
      StepKeepsOrder(c, s, ls[0]);
      ExecutionKeepsOrder(c, Step(c, s, ls[0]).value, ls[1..]);
    }
  }

  // Over every execution with careful reviewers and patient workers each log is in
  // order, and a run at rest has the status its last event tells.
  lemma OrderOverRuns(c: Config, s: State, ls: seq<Label>, r: nat)
    requires Reached(c, s, ls, true) && r in s.db.runs
    ensures OrderedLog(LogOf(s.db, r))
    ensures Quiet(s, r) ==> s.db.runs[r].status == LastStatus(LogOf(s.db, r))
  {
    InitialInv(c);
    ExecutionKeepsOrder(c, INITIAL, ls);
    assert OrderedAt(s, r) && RunOk(c, s, r);
    if Quiet(s, r) {
      QuietStatus(c, s, r);
      OrderedLogStatus(LogOf(s.db, r));
    }
  }

  lemma PatienceAt(c: Config, s: State, w: nat, r: nat)
    requires WorkerAnnouncesStart(s, w).Some? && r == s.workers[w].run && RunOk(c, s, r) && OrderedAt(s, r)
    ensures OrderedLog(LogOf(WorkerAnnouncesStart(s, w).value.db, r)) <==> !ApprovalOwed(s, r)
  {
    OrderedAppend(LogOf(s.db, r), Started);
    if !ApprovalOwed(s, r) {
      StartFollows(c, s, w, r);
    } else {
      var id :| id in s.owed && id in s.db.reviews && s.db.reviews[id].run == r;
      assert EndsWith(LogOf(s.db, r), Paused(Mark(id, s.db.reviews[id].hook)));
    }
  }

  // Patience is exactly what the order needs: announcing a start keeps the log in order
  // if and only if no review of the run is approved without its log saying so.
  lemma OrderNeedsPatience(c: Config, s: State, w: nat)
    requires Inv(c, s) && Ordered(s) && WorkerAnnouncesStart(s, w).Some?
    ensures var r := s.workers[w].run;
            OrderedLog(LogOf(WorkerAnnouncesStart(s, w).value.db, r)) <==> !Untold(s.db, r)
  {
    OwedIffUntold(c, s, w, s.workers[w].run);
    PatienceAt(c, s, w, s.workers[w].run);
  }

  ghost predicate LogsOrdered(s: State) {
    forall r :: r in s.db.runs ==> OrderedLog(LogOf(s.db, r))
  }

  // In every state the labels go through all logs are in order.
  ghost predicate AlwaysOrdered(c: Config, s: State, ls: seq<Label>)
    decreases |ls|
  {
    LogsOrdered(s) && (|ls| > 0 ==> Step(c, s, ls[0]).Some? && AlwaysOrdered(c, Step(c, s, ls[0]).value, ls[1..]))
  }

  lemma ImpatientStep(c: Config, s: State, l: Label)
    requires Inv(c, s) && Ordered(s) && Step(c, s, l).Some? && !Patient(s, l)
    ensures !LogsOrdered(Step(c, s, l).value)
  {
    hide Inv, Ordered, OrderedLog, Untold;
    OrderNeedsPatience(c, s, l.worker);
    assert s.workers[l.worker].run in Step(c, s, l).value.db.runs;
  }

  lemma OrderedLogs(s: State)
    requires Ordered(s)
    ensures LogsOrdered(s)
  {
    forall r | r in s.db.runs
      ensures OrderedLog(LogOf(s.db, r))
    {
      assert OrderedAt(s, r);
    }
  }

  // Of the executions with careful reviewers, those in which all logs are in order all the
  // time are exactly those with patient workers.
  lemma {:induction false} AlwaysOrderedIffPatient(c: Config, s: State, ls: seq<Label>)
    requires Inv(c, s) && Ordered(s) && Legal(c, s, ls, false) && After(c, s, ls).Some?
    ensures AlwaysOrdered(c, s, ls) <==> Legal(c, s, ls, true)
    decreases |ls|
  {
    hide Inv, Ordered, LogsOrdered, Step, Careful, Patient;
    OrderedLogs(s);
    if |ls| > 0 {
      var s' := Step(c, s, ls[0]).value;
      if Patient(s, ls[0]) {
        StepKeepsInv(c, s, ls[0]);
        StepKeepsOrder(c, s, ls[0]);
        AlwaysOrderedIffPatient(c, s', ls[1..]);
      } else {
        ImpatientStep(c, s, ls[0]);
        assert !AlwaysOrdered(c, s', ls[1..]);
      }
    }
  }
}
