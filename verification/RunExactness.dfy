// Where the protocol depends on its reviewers: deciding a review is safe exactly for
// resolvable reviews, and what goes wrong otherwise.
module RunExactness {
  import opened Outcomes
  import opened RunLog
  import opened RunTables
  import opened RunProtocol
  import opened RunInvariant
  import opened RunPreserved
  import opened RunPreservedLog
  import opened RunPreservedReview
  import opened RunPreservedApproval
  import opened RunTheorems

  ghost predicate Safe(s: State) {
    Exclusive(s) && LogsTell(s)
  }

  // A resolve request from start to end.
  function Decision(v: nat, id: nat, approve: bool): seq<Label> {
    if approve then [Resolve(v, id, true), ReadRun(v), Requeue(v), AnnounceApproval(v)]
    else [Resolve(v, id, false), WriteDenial(v), AnnounceDenial(v)]
  }

  // The tables an uninterrupted decision leaves.
  function Resolution(db: Db, id: nat, approve: bool): Db
    requires id in db.reviews && db.reviews[id].run in db.runs
  {
    var ReviewRow(r, h, _) := db.reviews[id];
    var resolved := ResolveReview(db, id, if approve then Accepted else Refused);
    if approve then
      AppendEvent(RequeueRun(resolved, r, WithHook(db.runs[r].approved, h)), r, Approved(Mark(id, h)))
    else
      AppendEvent(SetStatus(resolved, r, BLOCKED), r, Denied(Mark(id, h)))
  }

  // What of it matters for safety.
  ghost predicate Decided(s: State, s': State, id: nat, approve: bool)
    requires id in s.db.reviews && s.db.reviews[id].run in s.db.runs
  {
    var r := s.db.reviews[id].run;
    var m := Mark(id, s.db.reviews[id].hook);
    && s'.workers == s.workers && s'.reviewers == s.reviewers
    && r in s'.db.runs
    && s'.db.runs[r].status == (if approve then QUEUED else BLOCKED)
    && LogOf(s'.db, r) == LogOf(s.db, r) + [if approve then Approved(m) else Denied(m)]
  }

  // The reviewer's steps, each with what the next one reads.
  lemma ResolveStep(c: Config, s: State, v: nat, id: nat, approve: bool) returns (s': State)
    requires v !in s.reviewers && id in s.db.reviews
    ensures Step(c, s, Resolve(v, id, approve)) == Some(s')
    ensures s'.workers == s.workers && s'.reviewers == s.reviewers[v := Resolved(s.db.reviews[id].run, Mark(id, s.db.reviews[id].hook), approve)]
    ensures s'.db == ResolveReview(s.db, id, if approve then Accepted else Refused)
  {
    s' := ReviewerResolves(s, v, id, approve).value;
  }

  lemma ReadStep(c: Config, s: State, v: nat) returns (s': State)
    requires Reviews(s, v) && s.reviewers[v].Resolved? && s.reviewers[v].approve
    ensures Step(c, s, ReadRun(v)) == Some(s') && Careful(s, ReadRun(v))
    ensures s'.claims == s.claims
    ensures s'.workers == s.workers && s'.db == s.db
    ensures s'.reviewers == s.reviewers[v := RunRead(s.reviewers[v].run, s.reviewers[v].mark, s.db.runs[s.reviewers[v].run].approved)]
  {
    s' := ReviewerReadsRun(s, v).value;
  }

  lemma RequeueStep(c: Config, s: State, v: nat) returns (s': State)
    requires Reviews(s, v) && s.reviewers[v].RunRead?
    ensures Step(c, s, Requeue(v)) == Some(s') && Careful(s, Requeue(v))
    ensures s'.claims == s.claims
    ensures s'.workers == s.workers && s'.reviewers == s.reviewers[v := Requeued(s.reviewers[v].run, s.reviewers[v].mark)]
    ensures s'.db == RequeueRun(s.db, s.reviewers[v].run, WithHook(s.reviewers[v].approved, s.reviewers[v].mark.hook))
  {
    s' := ReviewerRequeues(s, v).value;
  }

  lemma ApproveStep(c: Config, s: State, v: nat) returns (s': State)
    requires Reviews(s, v) && s.reviewers[v].Requeued?
    ensures Step(c, s, AnnounceApproval(v)) == Some(s') && Careful(s, AnnounceApproval(v))
    ensures s'.claims == s.claims
    ensures s'.workers == s.workers && s'.reviewers == s.reviewers - {v}
    ensures s'.db == AppendEvent(s.db, s.reviewers[v].run, Approved(s.reviewers[v].mark))
  {
    s' := ReviewerAnnouncesApproval(s, v).value;
  }

  lemma DenyStep(c: Config, s: State, v: nat) returns (s': State)
    requires Reviews(s, v) && s.reviewers[v].Resolved? && !s.reviewers[v].approve
    ensures Step(c, s, WriteDenial(v)) == Some(s') && Careful(s, WriteDenial(v))
    ensures s'.workers == s.workers && s'.reviewers == s.reviewers[v := DenialWritten(s.reviewers[v].run, s.reviewers[v].mark)]
    ensures s'.db == SetStatus(s.db, s.reviewers[v].run, BLOCKED)
  {
    s' := ReviewerWritesDenial(s, v).value;
  }

  lemma AnnounceDenialStep(c: Config, s: State, v: nat) returns (s': State)
    requires Reviews(s, v) && s.reviewers[v].DenialWritten?
    ensures Step(c, s, AnnounceDenial(v)) == Some(s') && Careful(s, AnnounceDenial(v))
    ensures s'.workers == s.workers && s'.reviewers == s.reviewers - {v}
    ensures s'.db == AppendEvent(s.db, s.reviewers[v].run, Denied(s.reviewers[v].mark))
  {
    s' := ReviewerAnnouncesDenial(s, v).value;
  }

  // An uninterrupted decision runs to its end; only its first step needs care.
  ghost predicate DecisionChain(c: Config, ss: seq<State>, s: State, v: nat, id: nat, approve: bool) {
    var ls := Decision(v, id, approve);
    && Chain(c, ss, ls) && ss[0] == s
    && forall i :: 1 <= i < |ls| ==> Careful(ss[i], ls[i])
  }

  lemma DecisionRuns(c: Config, s: State, v: nat, id: nat, approve: bool) returns (ss: seq<State>)
    requires v !in s.reviewers && id in s.db.reviews && s.db.reviews[id].run in s.db.runs
    ensures DecisionChain(c, ss, s, v, id, approve)
    ensures Decided(s, ss[|ss| - 1], id, approve) && ss[|ss| - 1].db == Resolution(s.db, id, approve)
  {
    hide Step, Careful;
    var s1 := ResolveStep(c, s, v, id, approve);
    if approve {
      var s2 := ReadStep(c, s1, v);
      var s3 := RequeueStep(c, s2, v);
      var s4 := ApproveStep(c, s3, v);
      ss := [s, s1, s2, s3, s4];
      assert s4.reviewers == s.reviewers;
    } else {
      var s2 := DenyStep(c, s1, v);
      var s3 := AnnounceDenialStep(c, s2, v);
      ss := [s, s1, s2, s3];
      assert s3.reviewers == s.reviewers;
    }
  }

  // --- An unresolvable review ----------------------------------------------------------------

  // An approved review was announced, since no reviewer is on the run.
  lemma ApprovedAnnounced(c: Config, s: State, r: nat, i: nat)
    requires r in s.db.runs && RowOk(c, s.db, s.claims, r) && LogOk(s, r) && OwedOf(s, r)
    requires forall v :: v in s.reviewers ==> s.reviewers[v].run != r
    requires i < |s.db.runs[r].approved|
    ensures i < |Pauses(s.db, r)| && Approved(Pauses(s.db, r)[i]) in LogOf(s.db, r)
  {
    assert ReviewIs(s.db, Pauses(s.db, r)[i], r, Accepted);
  }

  // Deciding a review again appends a second decision on it.
  lemma SecondDecision(log: seq<Event>, m: Mark, approve: bool)
    requires Approved(m) in log
    ensures var log' := log + [if approve then Approved(m) else Denied(m)];
            !ApprovalsMatched(log') || !DecidedOnce(log')
  {
    var i :| 0 <= i < |log| && log[i] == Approved(m);
    var log' := log + [if approve then Approved(m) else Denied(m)];
    assert log'[i] == Approved(m) && log'[|log|] == (if approve then Approved(m) else Denied(m));
    if !approve {
      assert log'[i].Approved? && log'[|log|].Denied? && log'[i].mark == log'[|log|].mark;
    }
  }

  lemma RefusedRests(c: Config, s: State, id: nat, r: nat, i: nat)
    requires id in s.db.reviews && s.db.reviews[id].run == r && r in s.db.runs
    requires RowOk(c, s.db, s.claims, r) && InHand(c, s, r)
    requires forall v :: v in s.reviewers ==> s.reviewers[v].run != r
    requires !Resolvable(s.db, id)
    requires |s.db.runs[r].approved| <= i < |Pauses(s.db, r)| && Pauses(s.db, r)[i] == Mark(id, s.db.reviews[id].hook)
    ensures s.charge[r] == Nobody && StageOf(LogOf(s.db, r)).kind == Closed(BLOCKED)
  {
    assert s.charge[r] == Nobody;
    assert RestsWell(c, s.db, r);
    NotBroken(c, s, r);
    PausedInLog(LogOf(s.db, r), Mark(id, s.db.reviews[id].hook));
  }

  // Where the review stands if it cannot be resolved and no reviewer is on the run.
  lemma Unresolvable(c: Config, s: State, id: nat, r: nat)
    requires id in s.db.reviews && s.db.reviews[id].run == r && r in s.db.runs && RunOk(c, s, r)
    requires forall v :: v in s.reviewers ==> s.reviewers[v].run != r
    requires !Resolvable(s.db, id)
    ensures r in s.charge
    ensures var m := Mark(id, s.db.reviews[id].hook);
            || Approved(m) in LogOf(s.db, r)
            || (s.charge[r] == Nobody && StageOf(LogOf(s.db, r)).kind == Closed(BLOCKED))
            || (s.charge[r].ByWorker? && s.charge[r].worker in s.workers && s.workers[s.charge[r].worker].run == r
                && StageOf(LogOf(s.db, r)).kind.Live?)
  {
    var m, ps, k := Mark(id, s.db.reviews[id].hook), Pauses(s.db, r), |s.db.runs[r].approved|;
    if m in ps {
      var i :| 0 <= i < |ps| && ps[i] == m;
      if i < k {
        ApprovedAnnounced(c, s, r, i);
      } else {
        RefusedRests(c, s, id, r, i);
      }
    } else {
      assert AboutToAnnounce(s, r, m);
    }
  }

  lemma RestHasNoWorker(c: Config, s: State, r: nat)
    requires r in s.db.runs && RunOk(c, s, r) && s.charge[r] == Nobody
    ensures forall w :: w in s.workers ==> s.workers[w].run != r
  {
    hide RowOk, InHand, LogOk, ReviewersOf, OwedOf, ReviewsOf;
  }

  // A decision announced on a run at rest that is blocked, or on a run that a worker has
  // started, leaves an unsafe state.
  lemma ClosedUnsafe(c: Config, s: State, s': State, id: nat, r: nat, approve: bool)
    requires id in s.db.reviews && s.db.reviews[id].run == r && r in s.db.runs && RunOk(c, s, r) && r in s.charge
    requires forall v :: v in s.reviewers ==> s.reviewers[v].run != r
    requires Decided(s, s', id, approve)
    requires (s.charge[r] == Nobody && StageOf(LogOf(s.db, r)).kind == Closed(BLOCKED))
             || (s.charge[r].ByWorker? && s.charge[r].worker in s.workers && s.workers[s.charge[r].worker].run == r
                 && StageOf(LogOf(s.db, r)).kind.Live?)
    ensures !Safe(s')
  {
    hide RunOk, LooseLog, ApprovalsMatched, DecidedOnce;
    var m, log := Mark(id, s.db.reviews[id].hook), LogOf(s.db, r);
    StageOfAppend(log, if approve then Approved(m) else Denied(m));
    StageIsLooseLog(LogOf(s'.db, r));
    if s.charge[r] == Nobody {
      RestHasNoWorker(c, s, r);
      assert Quiet(s', r);
    } else {
      assert s.charge[r].worker in s'.workers;
    }
  }

  lemma UnresolvableUnsafe(c: Config, s: State, s': State, id: nat, r: nat, approve: bool)
    requires id in s.db.reviews && s.db.reviews[id].run == r && r in s.db.runs && RunOk(c, s, r)
    requires forall v :: v in s.reviewers ==> s.reviewers[v].run != r
    requires !Resolvable(s.db, id) && Decided(s, s', id, approve)
    ensures !Safe(s')
  {
    hide RunOk, Resolvable, LooseLog, StageOf, ApprovalsMatched, DecidedOnce, Exclusive;
    var m, log := Mark(id, s.db.reviews[id].hook), LogOf(s.db, r);
    Unresolvable(c, s, id, r);
    if Approved(m) in log {
      SecondDecision(log, m, approve);
    } else {
      ClosedUnsafe(c, s, s', id, r, approve);
    }
  }

  lemma SafeAfter(c: Config, s: State, ls: seq<Label>, s': State)
    requires Inv(c, s) && Legal(c, s, ls, false) && After(c, s, ls) == Some(s')
    ensures Safe(s')
  {
    ExecutionKeepsInv(c, s, ls, false);
    InvExclusive(c, s');
    InvLogsTell(c, s');
  }

  lemma ResolvableLegal(c: Config, ss: seq<State>, s: State, v: nat, id: nat, approve: bool)
    requires Resolvable(s.db, id) && DecisionChain(c, ss, s, v, id, approve)
    ensures Legal(c, s, Decision(v, id, approve), false)
  {
    var ls := Decision(v, id, approve);
    assert Careful(ss[0], ls[0]);
    ChainLegal(c, ss, ls);
  }

  // Resolving a review while no other reviewer is on its run, approving or denying,
  // ends in a safe state if and only if the review was waiting and its pause announced.
  lemma DecisionSafeIffResolvable(c: Config, s: State, v: nat, id: nat, approve: bool)
    requires Inv(c, s) && v !in s.reviewers && id in s.db.reviews && s.db.reviews[id].run in s.db.runs
    requires forall u :: u in s.reviewers ==> s.reviewers[u].run != s.db.reviews[id].run
    ensures After(c, s, Decision(v, id, approve)).Some?
    ensures Safe(After(c, s, Decision(v, id, approve)).value) <==> Resolvable(s.db, id)
  {
    var ss := DecisionRuns(c, s, v, id, approve);
    ChainAfter(c, ss, Decision(v, id, approve));
    if Resolvable(s.db, id) {
      ResolvableLegal(c, ss, s, v, id, approve);
      SafeAfter(c, s, Decision(v, id, approve), ss[|ss| - 1]);
    } else {
      UnresolvableUnsafe(c, s, ss[|ss| - 1], id, s.db.reviews[id].run, approve);
    }
  }

  lemma RestingNotBroken(c: Config, s: State, r: nat)
    requires r in s.db.runs && RowOk(c, s.db, s.claims, r) && InHand(c, s, r)
    ensures !StageOf(LogOf(s.db, r)).kind.Broken?
  {
    NotBroken(c, s, r);
  }

  lemma PendingPaused(c: Config, s: State, id: nat, r: nat)
    requires Inv(c, s) && id in s.db.reviews && s.db.reviews[id].run == r
    requires forall w :: w in s.workers ==> s.workers[w].run != r
    ensures Mark(id, s.db.reviews[id].hook) in Pauses(s.db, r)
    ensures !StageOf(LogOf(s.db, r)).kind.Broken?
  {
    hide RowOk, LogOk, OwedOf, ReviewersOf, WorkersOf, WorkerAgrees, StageOf;
    assert RunOk(c, s, r);
    assert !AboutToAnnounce(s, r, Mark(id, s.db.reviews[id].hook));
    RestingNotBroken(c, s, r);
  }

  // While no worker is on the run, checking that the review is pending is enough.
  lemma PendingIsResolvable(c: Config, s: State, id: nat)
    requires Inv(c, s) && id in s.db.reviews
    requires forall w :: w in s.workers ==> s.workers[w].run != s.db.reviews[id].run
    ensures Resolvable(s.db, id) <==> s.db.reviews[id].state == Waiting
  {
    var r, m := s.db.reviews[id].run, Mark(id, s.db.reviews[id].hook);
    PendingPaused(c, s, id, r);
    PausedInLog(LogOf(s.db, r), m);
  }
}
