// Care is exactly what safety needs: a step keeps every careful continuation safe if
// and only if it is careful itself, whoever else is at work on the run.
module RunCare {
  import opened Outcomes
  import opened RunLog
  import opened RunTables
  import opened RunProtocol
  import opened RunInvariant
  import opened RunPreserved
  import opened RunPreservedReview
  import opened RunPreservedApproval
  import opened RunTheorems
  import opened RunExactness

  // Some continuation in which reviewers are careful ends in an unsafe state.
  ghost predicate Doomed(c: Config, s: State) {
    exists ls, s' :: Legal(c, s, ls, false) && After(c, s, ls) == Some(s') && !Safe(s')
  }

  lemma DoomedNow(c: Config, s: State)
    requires !Safe(s)
    ensures Doomed(c, s)
  {
    hide Safe;
    assert Legal(c, s, [], false) && After(c, s, []) == Some(s);
  }

  lemma DoomedBefore(c: Config, s: State, l: Label, s': State)
    requires Step(c, s, l) == Some(s') && Careful(s, l) && Doomed(c, s')
    ensures Doomed(c, s)
  {
    hide Step, Careful, Safe;
    var ls, s'' :| Legal(c, s', ls, false) && After(c, s', ls) == Some(s'') && !Safe(s'');
    assert ([l] + ls)[1..] == ls;
    assert Legal(c, s, [l] + ls, false) && After(c, s, [l] + ls) == Some(s'');
  }

  // --- One decision too many -------------------------------------------------------

  predicate DecidesOn(e: Event, m: Mark) {
    e == Approved(m) || e == Denied(m)
  }

  // The review was decided before, or its pause was never announced.
  ghost predicate Undecidable(log: seq<Event>, m: Mark) {
    Approved(m) in log || Denied(m) in log || Paused(m) !in log
  }

  lemma {:induction false} DeniedCloses(log: seq<Event>, m: Mark)
    requires Denied(m) in log
    ensures StageOf(log).kind.Closed? || StageOf(log).kind.Broken?
  {
    var front, e := log[..|log| - 1], log[|log| - 1];
    if e != Denied(m) {
      assert Denied(m) in front;
      DeniedCloses(front, m);
    }
  }

  lemma {:induction false} UnpausedMark(log: seq<Event>, m: Mark)
    requires Paused(m) !in log
    ensures m !in StageOf(log).pauses
  {
    if |log| > 0 {
      UnpausedMark(log[..|log| - 1], m);
    }
  }

  lemma ApprovedAfterDenied(log: seq<Event>, m: Mark)
    requires Denied(m) in log
    ensures !DecidedOnce(log + [Approved(m)])
  {
    var j :| 0 <= j < |log| && log[j] == Denied(m);
    var log' := log + [Approved(m)];
    assert log'[|log|].Approved? && log'[j].Denied? && log'[|log|].mark == log'[j].mark;
  }

  lemma ApprovedUnpaused(log: seq<Event>, m: Mark)
    requires Paused(m) !in log
    ensures !ApprovalsMatched(log + [Approved(m)])
  {
    var log' := log + [Approved(m)];
    assert log'[|log|].Approved? && log'[..|log|] == log;
  }

  lemma DeniedBreaks(log: seq<Event>, m: Mark)
    requires Denied(m) in log || Paused(m) !in log
    ensures StageOf(log + [Denied(m)]).kind.Broken?
  {
    StageOfAppend(log, Denied(m));
    if Denied(m) in log {
      DeniedCloses(log, m);
    } else {
      UnpausedMark(log, m);
    }
  }

  // Announcing a decision on such a review leaves the languages of the logs.
  lemma UndecidableUnsafe(s: State, r: nat, log: seq<Event>, m: Mark, e: Event)
    requires r in s.db.runs && LogOf(s.db, r) == log + [e] && DecidesOn(e, m)
    requires Undecidable(log, m)
    ensures !Safe(s)
  {
    hide Exclusive, Quiet, LooseLog, StageOf, ApprovalsMatched, DecidedOnce;
    if Approved(m) in log {
      SecondDecision(log, m, e.Approved?);
    } else if e.Approved? {
      if Denied(m) in log {
        ApprovedAfterDenied(log, m);
      } else {
        ApprovedUnpaused(log, m);
      }
    } else {
      DeniedBreaks(log, m);
      StageIsLooseLog(log + [e]);
    }
  }

  // --- Reviewers that finish ---------------------------------------------------------

  // Reviewer v has resolved m and done nothing else yet.
  predicate Holding(s: State, v: nat, r: nat, m: Mark) {
    && r in s.db.runs && v in s.reviewers
    && s.reviewers[v].Resolved? && s.reviewers[v].run == r && s.reviewers[v].mark == m
  }

  lemma FinishDooms(c: Config, s: State, v: nat, r: nat, m: Mark)
    requires Holding(s, v, r, m) && Undecidable(LogOf(s.db, r), m)
    ensures Doomed(c, s)
  {
    hide Step, Careful, Doomed, Undecidable, Safe;
    var log := LogOf(s.db, r);
    if s.reviewers[v].approve {
      var s1 := ReadStep(c, s, v);
      var s2 := RequeueStep(c, s1, v);
      var s3 := ApproveStep(c, s2, v);
      UndecidableUnsafe(s3, r, log, m, Approved(m));
      DoomedNow(c, s3);
      DoomedBefore(c, s2, AnnounceApproval(v), s3);
      DoomedBefore(c, s1, Requeue(v), s2);
      DoomedBefore(c, s, ReadRun(v), s1);
    } else {
      var s1 := DenyStep(c, s, v);
      var s2 := AnnounceDenialStep(c, s1, v);
      UndecidableUnsafe(s2, r, log, m, Denied(m));
      DoomedNow(c, s2);
      DoomedBefore(c, s1, AnnounceDenial(v), s2);
      DoomedBefore(c, s, WriteDenial(v), s1);
    }
  }

  function StepsLeft(p: Reviewer): nat {
    match p
    case Resolved(_, _, _) => 3
    case RunRead(_, _, _) => 2
    case Requeued(_, _) => 1
    case DenialWritten(_, _) => 1
  }

  lemma FinishAfter(c: Config, s: State, s1: State, v: nat, r: nat, m: Mark, e: Event)
    requires Holding(s1, v, r, m) && LogOf(s1.db, r) == LogOf(s.db, r) + [e] && DecidesOn(e, m)
    ensures Doomed(c, s1)
  {
    hide Doomed;
    assert (LogOf(s.db, r) + [e])[|LogOf(s.db, r)|] == e;
    FinishDooms(c, s1, v, r, m);
  }

  // Two reviewers decide one review: once both have finished, it was decided twice.
  lemma {:induction false} TwoDecide(c: Config, s: State, u: nat, v: nat, r: nat, m: Mark)
    requires Holding(s, v, r, m) && u != v
    requires u in s.reviewers && s.reviewers[u].run == r && s.reviewers[u].mark == m
    ensures Doomed(c, s)
    decreases StepsLeft(s.reviewers[u])
  {
    hide Step, Careful, Doomed;
    match s.reviewers[u]
    case Resolved(_, _, approve) =>
      if approve {
        var s1 := ReadStep(c, s, u);
        TwoDecide(c, s1, u, v, r, m);
        DoomedBefore(c, s, ReadRun(u), s1);
      } else {
        var s1 := DenyStep(c, s, u);
        TwoDecide(c, s1, u, v, r, m);
        DoomedBefore(c, s, WriteDenial(u), s1);
      }
    case RunRead(_, _, _) =>
      var s1 := RequeueStep(c, s, u);
      TwoDecide(c, s1, u, v, r, m);
      DoomedBefore(c, s, Requeue(u), s1);
    case Requeued(_, _) =>
      var s1 := ApproveStep(c, s, u);
      FinishAfter(c, s, s1, v, r, m, Approved(m));
      DoomedBefore(c, s, AnnounceApproval(u), s1);
    case DenialWritten(_, _) =>
      var s1 := AnnounceDenialStep(c, s, u);
      FinishAfter(c, s, s1, v, r, m, Denied(m));
      DoomedBefore(c, s, AnnounceDenial(u), s1);
  }

  // --- A run that is closed ------------------------------------------------------------

  lemma BrokenUnsafe(s: State, r: nat, log: seq<Event>, e: Event)
    requires r in s.db.runs && LogOf(s.db, r) == log + [e]
    requires StageOf(log).kind.Closed? && !e.Approved?
    ensures !Safe(s)
  {
    hide Exclusive, Quiet, LooseLog, ApprovalsMatched, DecidedOnce;
    StageOfAppend(log, e);
    StageIsLooseLog(log + [e]);
  }

  lemma ClaimStep(c: Config, s: State, w: nat, r: nat) returns (s': State)
    requires w !in s.workers && r in s.db.runs && s.db.runs[r].status == QUEUED && r in s.claims
    ensures Step(c, s, Claim(w, r)) == Some(s') && Careful(s, Claim(w, r))
    ensures w in s'.workers && s'.workers[w] == Claimed(r, s.db.runs[r].approved) && s'.db == ClaimRun(s.db, r)
  {
    s' := WorkerClaims(s, w, r).value;
  }

  lemma MarkStep(c: Config, s: State, w: nat) returns (s': State)
    requires At(s, w) && s.workers[w].Claimed? && s.db.runs[s.workers[w].run].deployment in c.deployments
    ensures Step(c, s, MarkRunning(w)) == Some(s') && Careful(s, MarkRunning(w))
    ensures w in s'.workers && s'.workers[w] == Marked(s.workers[w].run, s.workers[w].approved)
    ensures s'.db == SetStatus(s.db, s.workers[w].run, RUNNING)
  {
    s' := WorkerMarks(c, s, w).value;
  }

  lemma StartStep(c: Config, s: State, w: nat) returns (s': State)
    requires At(s, w) && s.workers[w].Marked?
    ensures Step(c, s, AnnounceStart(w)) == Some(s') && Careful(s, AnnounceStart(w))
    ensures s'.db == AppendEvent(s.db, s.workers[w].run, Started)
  {
    s' := WorkerAnnouncesStart(s, w).value;
  }

  lemma RestartDooms(c: Config, s: State, r: nat, log: seq<Event>, m: Mark)
    requires r in s.db.runs && r in s.claims && s.db.runs[r].status == QUEUED && s.db.runs[r].deployment in c.deployments
    requires LogOf(s.db, r) == log + [Approved(m)] && StageOf(log).kind.Closed?
    ensures Doomed(c, s)
  {
    hide Step, Careful, Doomed, Safe;
    var w := FreeNat(s.workers.Keys);
    var s1 := ClaimStep(c, s, w, r);
    var s2 := MarkStep(c, s1, w);
    var s3 := StartStep(c, s2, w);
    StageOfAppend(log, Approved(m));
    BrokenUnsafe(s3, r, log + [Approved(m)], Started);
    DoomedNow(c, s3);
    DoomedBefore(c, s2, AnnounceStart(w), s3);
    DoomedBefore(c, s1, MarkRunning(w), s2);
    DoomedBefore(c, s, Claim(w, r), s1);
  }

  // Deciding a review of a closed run: a denial comes after the end of its log, and after
  // an approval the run is started again.
  lemma ClosedDooms(c: Config, s: State, v: nat, r: nat, m: Mark)
    requires Holding(s, v, r, m) && StageOf(LogOf(s.db, r)).kind.Closed?
    requires r in s.claims && s.db.runs[r].deployment in c.deployments
    ensures Doomed(c, s)
  {
    hide Step, Careful, Doomed, StageOf, Safe;
    var log := LogOf(s.db, r);
    if s.reviewers[v].approve {
      var s1 := ReadStep(c, s, v);
      var s2 := RequeueStep(c, s1, v);
      var s3 := ApproveStep(c, s2, v);
      RestartDooms(c, s3, r, log, m);
      DoomedBefore(c, s2, AnnounceApproval(v), s3);
      DoomedBefore(c, s1, Requeue(v), s2);
      DoomedBefore(c, s, ReadRun(v), s1);
    } else {
      var s1 := DenyStep(c, s, v);
      var s2 := AnnounceDenialStep(c, s1, v);
      BrokenUnsafe(s2, r, log, Denied(m));
      DoomedNow(c, s2);
      DoomedBefore(c, s1, AnnounceDenial(v), s2);
      DoomedBefore(c, s, WriteDenial(v), s1);
    }
  }

  // --- Resolving what cannot be resolved --------------------------------------------------

  // What stands in the way of a decision on a review that is not resolvable.
  datatype Obstacle =
    | OfLog                  // it was decided, or its pause was not announced
    | OfReviewer(u: nat)     // another reviewer is deciding it
    | OfEnd                  // the run has ended

  ghost predicate Stands(s: State, r: nat, m: Mark, o: Obstacle) {
    match o
    case OfLog => Undecidable(LogOf(s.db, r), m)
    case OfReviewer(u) => u in s.reviewers && s.reviewers[u].run == r && s.reviewers[u].mark == m
    case OfEnd => StageOf(LogOf(s.db, r)).kind.Closed?
  }

  // A review of an approved hook: its approval is announced, or its reviewer about to.
  lemma SettledObstacle(c: Config, s: State, id: nat, r: nat, i: nat) returns (o: Obstacle)
    requires id in s.db.reviews && s.db.reviews[id].run == r && r in s.db.runs
    requires RowOk(c, s.db, s.claims, r) && LogOk(s, r) && ReviewersOf(s, r) && OwedOf(s, r)
    requires i < |s.db.runs[r].approved| && i < |Pauses(s.db, r)| && Pauses(s.db, r)[i] == Mark(id, s.db.reviews[id].hook)
    ensures Stands(s, r, Mark(id, s.db.reviews[id].hook), o)
  {
    if id in s.owed {
      var u, ps := s.owed[id], Pauses(s.db, r);
      var j :| 0 <= j < |s.db.runs[r].approved| && j < |ps| && ps[j] == s.reviewers[u].mark;
      assert ps[j].review == ps[i].review;
      o := OfReviewer(u);
    } else {
      o := OfLog;
    }
  }

  // The last pause of a run that waits for no decision.
  lemma OpenObstacle(c: Config, s: State, id: nat, r: nat, i: nat) returns (o: Obstacle)
    requires id in s.db.reviews && s.db.reviews[id].run == r && r in s.db.runs
    requires RowOk(c, s.db, s.claims, r) && InHand(c, s, r) && !Resolvable(s.db, id)
    requires |s.db.runs[r].approved| <= i < |Pauses(s.db, r)| && Pauses(s.db, r)[i] == Mark(id, s.db.reviews[id].hook)
    ensures Stands(s, r, Mark(id, s.db.reviews[id].hook), o)
  {
    match s.charge[r]
    case Nobody =>
      assert RestsWell(c, s.db, r);
      NotBroken(c, s, r);
      PausedInLog(LogOf(s.db, r), Mark(id, s.db.reviews[id].hook));
      o := OfEnd;
    case ByWorker(_) =>
      assert false;
    case ByReviewer(u) =>
      assert ReviewerAgrees(c, s.db, s.reviewers[u], r);
      o := OfReviewer(u);
  }

  lemma Obstructed(c: Config, s: State, id: nat, r: nat) returns (o: Obstacle)
    requires id in s.db.reviews && s.db.reviews[id].run == r && r in s.db.runs && RunOk(c, s, r)
    requires !Resolvable(s.db, id)
    ensures Stands(s, r, Mark(id, s.db.reviews[id].hook), o)
  {
    hide RowOk, InHand, LogOk, WorkersOf, ReviewersOf, OwedOf, ReviewsOf, StageOf;
    var m, ps, k := Mark(id, s.db.reviews[id].hook), Pauses(s.db, r), |s.db.runs[r].approved|;
    NotBroken(c, s, r);
    PausedInLog(LogOf(s.db, r), m);
    if m !in ps {
      return OfLog;
    }
    var i :| 0 <= i < |ps| && ps[i] == m;
    if i < k {
      o := SettledObstacle(c, s, id, r, i);
    } else {
      o := OpenObstacle(c, s, id, r, i);
    }
  }

  lemma ObstructedDooms(c: Config, s: State, v: nat, r: nat, m: Mark, o: Obstacle)
    requires Holding(s, v, r, m) && Stands(s, r, m, o) && o != OfReviewer(v)
    requires r in s.claims && s.db.runs[r].deployment in c.deployments
    ensures Doomed(c, s)
  {
    hide Doomed, Undecidable, StageOf;
    match o
    case OfLog => FinishDooms(c, s, v, r, m);
    case OfReviewer(u) => TwoDecide(c, s, u, v, r, m);
    case OfEnd => ClosedDooms(c, s, v, r, m);
  }

  lemma ClaimedAndDeployed(c: Config, s: State, r: nat)
    requires Inv(c, s) && r in s.db.runs
    ensures r in s.claims && s.db.runs[r].deployment in c.deployments && RunOk(c, s, r)
  {
    assert RunOk(c, s, r);
  }

  lemma CarelessDooms(c: Config, s: State, v: nat, id: nat, approve: bool)
    requires Inv(c, s) && ReviewerResolves(s, v, id, approve).Some? && !Resolvable(s.db, id)
    ensures Doomed(c, ReviewerResolves(s, v, id, approve).value)
  {
    hide Doomed, RunOk, Resolvable;
    var s', r, m := ReviewerResolves(s, v, id, approve).value, s.db.reviews[id].run, Mark(id, s.db.reviews[id].hook);
    ClaimedAndDeployed(c, s, r);
    var o := Obstructed(c, s, id, r);
    assert LogOf(s'.db, r) == LogOf(s.db, r);
    assert Stands(s', r, m, o);
    ObstructedDooms(c, s', v, r, m, o);
  }

  // In every state of the invariant, whoever is at work: a step leaves all its careful
  // continuations safe if and only if it is careful, that is, unless it resolves a review
  // that is not pending or whose pause is not announced.
  lemma CarefulIsExact(c: Config, s: State, l: Label)
    requires Inv(c, s) && Step(c, s, l).Some?
    ensures Careful(s, l) <==> !Doomed(c, Step(c, s, l).value)
  {
    hide Inv, Safe, Resolvable;
    var s' := Step(c, s, l).value;
    if Careful(s, l) {
      StepKeepsInv(c, s, l);
      forall ls, s'' | Legal(c, s', ls, false) && After(c, s', ls) == Some(s'')
        ensures Safe(s'')
      {
        SafeAfter(c, s', ls, s'');
      }
    } else {
      CarelessDooms(c, s, l.reviewer, l.review, l.approve);
    }
  }

  // No state the labels go through is doomed.
  ghost predicate NeverDoomed(c: Config, s: State, ls: seq<Label>)
    decreases |ls|
  {
    !Doomed(c, s) && (|ls| > 0 ==> Step(c, s, ls[0]).Some? && NeverDoomed(c, Step(c, s, ls[0]).value, ls[1..]))
  }

  lemma InvNotDoomed(c: Config, s: State)
    requires Inv(c, s)
    ensures !Doomed(c, s)
  {
    hide Inv, Safe;
    forall ls, s' | Legal(c, s, ls, false) && After(c, s, ls) == Some(s')
      ensures Safe(s')
    {
      SafeAfter(c, s, ls, s');
    }
  }

  // The executions with careful reviewers are exactly those from which safety can never
  // be lost while reviewers are careful from then on.
  lemma {:induction false} LegalIffNeverDoomed(c: Config, s: State, ls: seq<Label>)
    requires Inv(c, s) && After(c, s, ls).Some?
    ensures Legal(c, s, ls, false) <==> NeverDoomed(c, s, ls)
    decreases |ls|
  {
    hide Inv, Safe, Step, Careful, Doomed;
    InvNotDoomed(c, s);
    if |ls| > 0 {
      CarefulIsExact(c, s, ls[0]);
      if Careful(s, ls[0]) {
        StepKeepsInv(c, s, ls[0]);
        LegalIffNeverDoomed(c, Step(c, s, ls[0]).value, ls[1..]);
      }
    }
  }
}
