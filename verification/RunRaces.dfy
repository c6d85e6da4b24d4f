// Executions. Of the code as it is: a review approved too early lets two workers hold
// one run, and a run claimed before its approval is announced has a log out of order. And
// one that keeps all the disciplines: a run is paused, approved and executed.
module RunRaces {
  import opened Outcomes
  import opened RunLog
  import opened RunTables
  import opened RunProtocol
  import opened RunTheorems
  import opened RunExactness
  import Hooks = RuntimeHooks

  // What the steps of an execution keep to: reviews are resolved only while they are
  // pending (so each at most once), reviewers are careful, and in addition workers patient.
  datatype Kept = Pending | Care | CareAndPatience

  predicate Allowed(s: State, l: Label, k: Kept) {
    match k
    case Pending => l.Resolve? ==> l.review in s.db.reviews && s.db.reviews[l.review].state == Waiting
    case Care => Careful(s, l)
    case CareAndPatience => Careful(s, l) && Patient(s, l)
  }

  ghost predicate Keeps(c: Config, s: State, ls: seq<Label>, k: Kept)
    decreases |ls|
  {
    |ls| == 0
    || (Step(c, s, ls[0]).Some? && Allowed(s, ls[0], k) && Keeps(c, Step(c, s, ls[0]).value, ls[1..], k))
  }

  ghost predicate Reach(c: Config, s: State, k: Kept) {
    exists ls :: After(c, INITIAL, ls) == Some(s) && Keeps(c, INITIAL, ls, k)
  }

  lemma {:induction false} KeepsIsLegal(c: Config, s: State, ls: seq<Label>, k: Kept)
    requires Keeps(c, s, ls, k) && !k.Pending?
    ensures Legal(c, s, ls, k.CareAndPatience?)
    decreases |ls|
  {
    hide Step, Careful, Patient;
    if |ls| > 0 {
      KeepsIsLegal(c, Step(c, s, ls[0]).value, ls[1..], k);
    }
  }

  lemma {:induction false} AfterSnoc(c: Config, s: State, ls: seq<Label>, l: Label)
    requires After(c, s, ls).Some?
    ensures After(c, s, ls + [l]) == Step(c, After(c, s, ls).value, l)
    decreases |ls|
  {
    hide Step;
    if |ls| == 0 {
      assert ([] + [l])[1..] == [];
    } else {
      AfterSnoc(c, Step(c, s, ls[0]).value, ls[1..], l);
      assert (ls + [l])[1..] == ls[1..] + [l];
    }
  }

  lemma {:induction false} KeepsSnoc(c: Config, s: State, ls: seq<Label>, l: Label, k: Kept)
    requires After(c, s, ls).Some? && Keeps(c, s, ls, k)
    requires Step(c, After(c, s, ls).value, l).Some? && Allowed(After(c, s, ls).value, l, k)
    ensures Keeps(c, s, ls + [l], k)
    decreases |ls|
  {
    hide Step, Allowed;
    if |ls| == 0 {
      assert [] + [l] == [l] && [l][1..] == [];
    } else {
      KeepsSnoc(c, Step(c, s, ls[0]).value, ls[1..], l, k);
      assert (ls + [l])[1..] == ls[1..] + [l];
    }
  }

  lemma ReachStep(c: Config, s: State, l: Label, s': State, k: Kept)
    requires Reach(c, s, k) && Step(c, s, l) == Some(s') && Allowed(s, l, k)
    ensures Reach(c, s', k)
  {
    hide Step, Allowed, Keeps;
    var ls :| After(c, INITIAL, ls) == Some(s) && Keeps(c, INITIAL, ls, k);
    AfterSnoc(c, INITIAL, ls, l);
    KeepsSnoc(c, INITIAL, ls, l, k);
  }

  // Run 1 of deployment d, with no key.
  ghost predicate Has(s: State, d: string, q: string, status: RunStatus, approved: seq<string>, log: seq<Event>) {
    && 1 in s.db.runs && 1 in s.claims
    && s.db.runs[1].deployment == d && s.db.runs[1].query == q
    && s.db.runs[1].status == status && s.db.runs[1].approved == approved
    && LogOf(s.db, 1) == log
  }

  // The gate of a fresh run pauses.
  ghost predicate Pauses1(c: Config, d: string, q: string, hook: string) {
    && d in c.deployments
    && forall row: RunRow :: row.deployment == d && row.query == q ==>
         GateOf(c, 1, row, []).Pause? && GateOf(c, 1, row, []).hook.id == hook
  }

  lemma Empty(c: Config, k: Kept)
    ensures Reach(c, INITIAL, k)
  {
    assert After(c, INITIAL, []) == Some(INITIAL) && Keeps(c, INITIAL, [], k);
  }

  lemma Submits(c: Config, d: string, q: string, k: Kept) returns (s: State)
    requires d in c.deployments
    ensures Reach(c, s, k) && Has(s, d, q, QUEUED, [], []) && s.workers == map[] && s.reviewers == map[] && s.db.reviews == map[]
    ensures s.owed == map[]
  {
    hide Keeps, After;
    Empty(c, k);
    var s1 := INITIAL.(submits := INITIAL.submits[7 := LookedUp(d, None, q)]);
    ReachStep(c, INITIAL, Lookup(7, d, None, q, None), s1, k);
    var s2 := s1.(submits := s1.submits[7 := Selected(d, None, q)]);
    ReachStep(c, s1, SelectKey(7, None), s2, k);
    s := SubmitInsert(c, s2, 7, 1).value;
    ReachStep(c, s2, Insert(7, 1), s, k);
  }

  // Worker w claims run 1.
  lemma Claims(c: Config, s0: State, w: nat, d: string, q: string, a: seq<string>, log: seq<Event>, k: Kept) returns (s: State)
    requires Reach(c, s0, k) && Has(s0, d, q, QUEUED, a, log) && w !in s0.workers
    ensures Reach(c, s, k) && Has(s, d, q, RUNNING, a, log) && s.owed == s0.owed
    ensures s.workers == s0.workers[w := Claimed(1, a)] && s.reviewers == s0.reviewers && s.db.reviews == s0.db.reviews
  {
    hide Reach, SubmitLookup, SubmitSelect, SubmitInsert;
    s := WorkerClaims(s0, w, 1).value;
    ReachStep(c, s0, Claim(w, 1), s, k);
  }

  // Worker w claims run 1 and announces the start.
  lemma Starts(c: Config, s0: State, w: nat, d: string, q: string, a: seq<string>, log: seq<Event>, k: Kept) returns (s: State)
    requires Reach(c, s0, k) && Has(s0, d, q, QUEUED, a, log) && d in c.deployments && w !in s0.workers
    requires k.CareAndPatience? ==> !Untold(s0.db, 1)
    ensures Reach(c, s, k) && Has(s, d, q, RUNNING, a, log + [Started]) && s.owed == s0.owed
    ensures s.workers == s0.workers[w := Announced(1, a)] && s.reviewers == s0.reviewers && s.db.reviews == s0.db.reviews
  {
    hide Reach, SubmitLookup, SubmitSelect, SubmitInsert;
    var s1 := Claims(c, s0, w, d, q, a, log, k);
    var s2 := WorkerMarks(c, s1, w).value;
    ReachStep(c, s1, MarkRunning(w), s2, k);
    s := WorkerAnnouncesStart(s2, w).value;
    ReachStep(c, s2, AnnounceStart(w), s, k);
    assert s.workers == s0.workers[w := Announced(1, a)];
  }

  lemma Opens(c: Config, s0: State, d: string, q: string, hook: string, k: Kept) returns (s: State)
    requires Reach(c, s0, k) && Has(s0, d, q, RUNNING, [], [Started]) && Pauses1(c, d, q, hook)
    requires s0.workers == map[1 := Announced(1, [])] && s0.db.reviews == map[]
    ensures Reach(c, s, k) && Has(s, d, q, RUNNING, [], [Started])
    ensures s.workers == map[1 := Pausing(1, [], Mark(5, hook))] && s.reviewers == s0.reviewers
    ensures s.db.reviews == map[5 := ReviewRow(1, hook, Waiting)] && s.owed == s0.owed
  {
    s := WorkerOpensReview(c, s0, 1, 5).value;
    ReachStep(c, s0, OpenReview(1, 5), s, k);
  }

  // The shape of a state in which reviewer 9 is about to requeue run 1.
  ghost predicate Requeueing(s: State, d: string, q: string, hook: string, status: RunStatus, log: seq<Event>) {
    && Has(s, d, q, status, [], log)
    && 9 in s.reviewers
    && s.reviewers[9] == RunRead(1, Mark(5, hook), [])
  }

  lemma ApprovalReads(c: Config, s0: State, d: string, q: string, hook: string, status: RunStatus, log: seq<Event>, k: Kept) returns (s: State)
    requires Reach(c, s0, k) && Has(s0, d, q, status, [], log) && 9 !in s0.reviewers
    requires 5 in s0.db.reviews && s0.db.reviews[5].run == 1 && s0.db.reviews[5].hook == hook
    requires s0.db.reviews[5].state == Waiting && (!k.Pending? ==> Resolvable(s0.db, 5))
    ensures Reach(c, s, k) && Requeueing(s, d, q, hook, status, log) && s.workers == s0.workers && s.owed == s0.owed
    ensures s.db.reviews == s0.db.reviews[5 := ReviewRow(1, hook, Accepted)]
  {
    var s1 := s0.(db := ResolveReview(s0.db, 5, Accepted),
                  reviewers := s0.reviewers[9 := Resolved(1, Mark(5, hook), true)],
                  charge := s0.charge[1 := ByReviewer(9)]);
    ReachStep(c, s0, Resolve(9, 5, true), s1, k);
    s := s1.(reviewers := s1.reviewers[9 := RunRead(1, Mark(5, hook), [])]);
    ReachStep(c, s1, ReadRun(9), s, k);
  }

  lemma ApprovalRequeues(c: Config, s0: State, d: string, q: string, hook: string, status: RunStatus, log: seq<Event>, k: Kept) returns (s: State)
    requires Reach(c, s0, k) && Requeueing(s0, d, q, hook, status, log)
    ensures Reach(c, s, k) && Has(s, d, q, QUEUED, [hook], log) && s.workers == s0.workers && s.db.reviews == s0.db.reviews
    ensures 9 in s.reviewers && s.reviewers[9] == Requeued(1, Mark(5, hook)) && s.owed == s0.owed[5 := 9]
  {
    assert [] + [hook] == [hook];
    s := s0.(db := RequeueRun(s0.db, 1, [hook]),
             reviewers := s0.reviewers[9 := Requeued(1, Mark(5, hook))],
             charge := s0.charge[1 := Nobody],
             owed := s0.owed[5 := 9]);
    ReachStep(c, s0, Requeue(9), s, k);
  }

  // Reviewer 9 approves review 5 and requeues the run.
  lemma Approves(c: Config, s0: State, d: string, q: string, hook: string, status: RunStatus, log: seq<Event>, k: Kept) returns (s: State)
    requires Reach(c, s0, k) && Has(s0, d, q, status, [], log) && 9 !in s0.reviewers
    requires 5 in s0.db.reviews && s0.db.reviews[5].run == 1 && s0.db.reviews[5].hook == hook
    requires s0.db.reviews[5].state == Waiting && (!k.Pending? ==> Resolvable(s0.db, 5))
    ensures Reach(c, s, k) && Has(s, d, q, QUEUED, [hook], log) && s.workers == s0.workers
    ensures 9 in s.reviewers && s.reviewers[9] == Requeued(1, Mark(5, hook)) && s.owed == s0.owed[5 := 9]
    ensures s.db.reviews == s0.db.reviews[5 := ReviewRow(1, hook, Accepted)]
  {
    var s1 := ApprovalReads(c, s0, d, q, hook, status, log, k);
    s := ApprovalRequeues(c, s1, d, q, hook, status, log, k);
  }

  // Run 1 is submitted, started and about to be paused.
  lemma Opened(c: Config, d: string, q: string, hook: string, k: Kept) returns (s: State)
    requires Pauses1(c, d, q, hook)
    ensures Reach(c, s, k) && Has(s, d, q, RUNNING, [], [Started])
    ensures s.workers == map[1 := Pausing(1, [], Mark(5, hook))] && s.reviewers == map[] && s.owed == map[]
    ensures s.db.reviews == map[5 := ReviewRow(1, hook, Waiting)]
  {
    hide Reach;
    var s0 := Submits(c, d, q, k);
    var s1 := Starts(c, s0, 1, d, q, [], [], k);
    assert [] + [Started] == [Started];
    assert map[][1 := Announced(1, [])] == map[1 := Announced(1, [])];
    s := Opens(c, s1, d, q, hook, k);
  }

  // A review approved between its creation and the REVIEW write: whenever a gate can
  // pause, some execution that resolves reviews only while they are pending has two
  // workers on one run.
  lemma EarlyApprovalBreaksExclusion(c: Config, d: string, q: string, hook: string)
    requires Pauses1(c, d, q, hook)
    ensures exists s :: Reach(c, s, Pending) && !Exclusive(s)
  {
    hide Reach;
    var s2 := Opened(c, d, q, hook, Pending);
    var s3 := Approves(c, s2, d, q, hook, RUNNING, [Started], Pending);
    var s4 := Starts(c, s3, 2, d, q, [hook], [Started], Pending);
    assert s4.workers[1].run == s4.workers[2].run;
  }

  lemma PausesWell(c: Config, s0: State, d: string, q: string, hook: string, k: Kept) returns (s: State)
    requires Reach(c, s0, k) && Has(s0, d, q, RUNNING, [], [Started])
    requires s0.workers == map[1 := Pausing(1, [], Mark(5, hook))]
    ensures Reach(c, s, k) && Has(s, d, q, REVIEW, [], [Started, Paused(Mark(5, hook))])
    ensures s.workers == map[] && s.reviewers == s0.reviewers && s.db.reviews == s0.db.reviews && s.owed == s0.owed
  {
    var s1 := WorkerWritesPause(s0, 1).value;
    ReachStep(c, s0, WritePause(1), s1, k);
    s := WorkerAnnouncesPause(s1, 1).value;
    ReachStep(c, s1, AnnouncePause(1), s, k);
    assert [Started] + [Paused(Mark(5, hook))] == [Started, Paused(Mark(5, hook))];
  }

  // Run 1 is paused, and its review can be resolved.
  lemma PausedWell(c: Config, d: string, q: string, hook: string, k: Kept) returns (s: State)
    requires Pauses1(c, d, q, hook)
    ensures Reach(c, s, k) && Has(s, d, q, REVIEW, [], [Started, Paused(Mark(5, hook))]) && Resolvable(s.db, 5)
    ensures s.workers == map[] && s.reviewers == map[] && s.owed == map[]
    ensures s.db.reviews == map[5 := ReviewRow(1, hook, Waiting)]
  {
    hide Reach;
    var s2 := Opened(c, d, q, hook, k);
    s := PausesWell(c, s2, d, q, hook, k);
    assert [Started, Paused(Mark(5, hook))][1] == Paused(Mark(5, hook));
  }

  lemma StartedAfterPause(m: Mark)
    ensures !OrderedLog([Started, Paused(m)] + [Started])
  {
    var log := [Started, Paused(m)] + [Started];
    assert log[2] == Started;
  }

  // A run claimed between the requeue and the announcement of its approval, with
  // reviewers that are careful: its log is out of order.
  lemma OvertakenApprovalBreaksOrder(c: Config, d: string, q: string, hook: string)
    requires Pauses1(c, d, q, hook)
    ensures exists s :: Reach(c, s, Care) && 1 in s.db.runs && !OrderedLog(LogOf(s.db, 1))
  {
    hide Reach, OrderedLog, Resolvable;
    var s3 := PausedWell(c, d, q, hook, Care);
    var s4 := Approves(c, s3, d, q, hook, REVIEW, [Started, Paused(Mark(5, hook))], Care);
    var s5 := Starts(c, s4, 2, d, q, [hook], [Started, Paused(Mark(5, hook))], Care);
    StartedAfterPause(Mark(5, hook));
  }

  lemma Tells(c: Config, s0: State, d: string, q: string, hook: string, log: seq<Event>, k: Kept) returns (s: State)
    requires Reach(c, s0, k) && Has(s0, d, q, QUEUED, [hook], log)
    requires 9 in s0.reviewers && s0.reviewers[9] == Requeued(1, Mark(5, hook)) && s0.owed == map[5 := 9]
    ensures Reach(c, s, k) && Has(s, d, q, QUEUED, [hook], log + [Approved(Mark(5, hook))])
    ensures s.workers == s0.workers && s.owed == map[] && s.db.reviews == s0.db.reviews
  {
    hide Reach;
    s := ReviewerAnnouncesApproval(s0, 9).value;
    ReachStep(c, s0, AnnounceApproval(9), s, k);
  }

  // Once the hook is approved the gate opens to a native runner.
  ghost predicate OpensAfter(c: Config, d: string, q: string, hook: string) {
    && d in c.deployments && c.deployments[d].runtime.Native?
    && forall row: RunRow :: row.deployment == d && row.query == q ==> GateOf(c, 1, row, [hook]).Open?
  }

  lemma Executes(c: Config, s0: State, d: string, q: string, hook: string, log: seq<Event>, k: Kept) returns (s: State)
    requires Reach(c, s0, k) && Has(s0, d, q, RUNNING, [hook], log) && OpensAfter(c, d, q, hook)
    requires s0.workers == map[2 := Announced(1, [hook])]
    ensures Reach(c, s, k) && Has(s, d, q, RUNNING, [hook], log) && s.workers == map[2 := Executing(1, [hook])]
  {
    hide Reach;
    s := WorkerExecutes(c, s0, 2).value;
    ReachStep(c, s0, Execute(2), s, k);
  }

  lemma Announced1(db: Db, hook: string, log: seq<Event>)
    requires db.reviews == map[5 := ReviewRow(1, hook, Accepted)] && LogOf(db, 1) == log + [Approved(Mark(5, hook))]
    ensures !Untold(db, 1)
  {
    assert (log + [Approved(Mark(5, hook))])[|log|] == Approved(Mark(5, hook));
  }

  lemma ReachedLegally(c: Config, s: State) returns (ls: seq<Label>)
    requires Reach(c, s, CareAndPatience)
    ensures Reached(c, s, ls, true)
  {
    hide Keeps, Legal, After;
    ls :| After(c, INITIAL, ls) == Some(s) && Keeps(c, INITIAL, ls, CareAndPatience);
    KeepsIsLegal(c, INITIAL, ls, CareAndPatience);
  }

  // Under both disciplines a run can be paused, approved and executed.
  lemma ApprovedRunExecutes(c: Config, d: string, q: string, hook: string)
    requires Pauses1(c, d, q, hook) && OpensAfter(c, d, q, hook)
    ensures exists s, ls ::
              && Reached(c, s, ls, true)
              && 1 in s.db.runs && 2 in s.workers && s.workers[2] == Executing(1, [hook])
              && LogOf(s.db, 1) == [Started, Paused(Mark(5, hook)), Approved(Mark(5, hook)), Started]
  {
    hide Resolvable, Legal, Reach, After, Pauses1;
    var k, log := CareAndPatience, [Started, Paused(Mark(5, hook))];
    var s3 := PausedWell(c, d, q, hook, k);
    var s4 := Approves(c, s3, d, q, hook, REVIEW, log, k);
    assert s3.owed[5 := 9] == map[5 := 9];
    var s5 := Tells(c, s4, d, q, hook, log, k);
    assert s5.db.reviews == map[5 := ReviewRow(1, hook, Accepted)];
    Announced1(s5.db, hook, log);
    var s6 := Starts(c, s5, 2, d, q, [hook], log + [Approved(Mark(5, hook))], k);
    assert map[][2 := Announced(1, [hook])] == map[2 := Announced(1, [hook])];
    var s7 := Executes(c, s6, d, q, hook, log + [Approved(Mark(5, hook))] + [Started], k);
    assert log + [Approved(Mark(5, hook))] + [Started] == [Started, Paused(Mark(5, hook)), Approved(Mark(5, hook)), Started];
    var ls := ReachedLegally(c, s7);
  }

  // A deployment with one hook that pauses every run is such a deployment.
  const ONE_HOOK := Config(map["d" := Deployment("w", "e", Native, [Hooks.Hook("h", Hooks.BEFORE_WORKFLOW, Hooks.PauseForReview, [])])], true)

  lemma OneHookPauses(q: string)
    ensures Pauses1(ONE_HOOK, "d", q, "h") && OpensAfter(ONE_HOOK, "d", q, "h")
  {
    forall row: RunRow | row.deployment == "d" && row.query == q
      ensures GateOf(ONE_HOOK, 1, row, []).Pause? && GateOf(ONE_HOOK, 1, row, []).hook.id == "h"
      ensures GateOf(ONE_HOOK, 1, row, ["h"]).Open?
    {
      var hooks := ONE_HOOK.deployments["d"].hooks;
      assert hooks[1..] == [];
      var ctx := ContextOf(ONE_HOOK, 1, row, ["h"]);
      assert ctx.approved[0] == "h";
      assert Hooks.Stops(hooks[0], ctx) == Hooks.Fails;
      assert Hooks.FirstMatch(hooks, ctx) == Hooks.FirstMatch(hooks[1..], ctx);
    }
  }
}
