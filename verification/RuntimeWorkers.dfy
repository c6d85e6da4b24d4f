// The worker, the resume service and the dispatcher as they run: sequences of store
// calls. What each leaves in the tables is what its protocol steps leave when no other
// request comes in between (workers/runtime.py:37-170, runtime/hooks.py:51-359,
// runtime/dispatcher.py:95-141, api/main.py:1408-1423).
module RuntimeWorkers {
  import opened Outcomes
  import opened RunLog
  import opened RunTables
  import opened RunProtocol
  import opened RunInvariant
  import opened RunPreservedApproval
  import opened RunTheorems
  import opened RunExactness
  import opened RuntimeStore
  import Hooks = RuntimeHooks

  // --- The labels of a request --------------------------------------------------

  function GateLabels(w: nat, runtime: Runtime, gate: Hooks.Gate, id: nat, ok: bool): seq<Label> {
    match gate
    case Pause(_) => [OpenReview(w, id), WritePause(w), AnnouncePause(w)]
    case Stop(_) => [WriteBlock(w), AnnounceBlock(w)]
    case GateRaises => []
    case Open =>
      match runtime
      case Native => [Execute(w), WriteEnd(w, ok), AnnounceEnd(w)]
      case Temporal =>
        if ok then [Execute(w), WriteHandOver(w), AnnounceHandOver(w)]
        else [Execute(w), WriteEnd(w, false), AnnounceEnd(w)]
      case Unsupported => []
  }

  // One pass of worker w over run r; id is the next review id, and ok says how the
  // runner, or the start of the Temporal workflow, ends.
  function PassLabels(c: Config, db: Db, w: nat, r: nat, id: nat, ok: bool): seq<Label>
    requires r in db.runs && db.runs[r].deployment in c.deployments
  {
    [Claim(w, r), MarkRunning(w), AnnounceStart(w)]
    + GateLabels(w, c.deployments[db.runs[r].deployment].runtime, GateOf(c, r, db.runs[r], db.runs[r].approved), id, ok)
  }

  // --- The tables a request leaves ------------------------------------------------

  function Begun(db: Db, r: nat): Db
    requires r in db.runs
  {
    AppendEvent(SetStatus(ClaimRun(db, r), r, RUNNING), r, Started)
  }

  function Ended(db: Db, r: nat, status: RunStatus, e: Event): Db
    requires r in db.runs
  {
    AppendEvent(SetStatus(db, r, status), r, e)
  }

  function Gated(db: Db, r: nat, runtime: Runtime, gate: Hooks.Gate, id: nat, ok: bool): Db
    requires r in db.runs
  {
    match gate
    case Pause(h) => Ended(AddReview(db, id, r, h.id), r, REVIEW, Paused(Mark(id, h.id)))
    case Stop(h) => Ended(db, r, BLOCKED, HookBlocked(h.id))
    case GateRaises => db
    case Open =>
      if runtime.Unsupported? then db
      else if !ok then Ended(db, r, FAILED, Finished(false))
      else if runtime.Native? then Ended(db, r, COMPLETED, Finished(true))
      else Ended(db, r, RUNNING, TemporalStarted)
  }

  // --- A request alone takes its steps ----------------------------------------------

  lemma {:induction false} AfterConcat(c: Config, s: State, ls: seq<Label>, ls': seq<Label>)
    requires After(c, s, ls).Some?
    ensures After(c, s, ls + ls') == After(c, After(c, s, ls).value, ls')
    decreases |ls|
  {
    hide Step;
    if |ls| == 0 {
      assert ls + ls' == ls';
    } else {
      AfterConcat(c, Step(c, s, ls[0]).value, ls[1..], ls');
      assert (ls + ls')[1..] == ls[1..] + ls';
    }
  }

  lemma TwoSteps(c: Config, s: State, s1: State, s2: State, l1: Label, l2: Label)
    requires Step(c, s, l1) == Some(s1) && Step(c, s1, l2) == Some(s2)
    ensures After(c, s, [l1, l2]) == Some(s2)
  {
    hide Step;
    ChainAfter(c, [s, s1, s2], [l1, l2]);
  }

  lemma ThreeSteps(c: Config, s: State, s1: State, s2: State, s3: State, l1: Label, l2: Label, l3: Label)
    requires Step(c, s, l1) == Some(s1) && Step(c, s1, l2) == Some(s2) && Step(c, s2, l3) == Some(s3)
    ensures After(c, s, [l1, l2, l3]) == Some(s3)
  {
    hide Step;
    ChainAfter(c, [s, s1, s2, s3], [l1, l2, l3]);
  }

  lemma BeginsAlone(c: Config, s: State, w: nat, r: nat) returns (s3: State)
    requires w !in s.workers && r in s.db.runs && r in s.claims && s.db.runs[r].status == QUEUED
    requires s.db.runs[r].deployment in c.deployments
    ensures After(c, s, [Claim(w, r), MarkRunning(w), AnnounceStart(w)]) == Some(s3)
    ensures s3.db == Begun(s.db, r) && w in s3.workers && s3.workers[w] == Announced(r, s.db.runs[r].approved)
  {
    var s1 := WorkerClaims(s, w, r).value;
    var s2 := WorkerMarks(c, s1, w).value;
    s3 := WorkerAnnouncesStart(s2, w).value;
    ThreeSteps(c, s, s1, s2, s3, Claim(w, r), MarkRunning(w), AnnounceStart(w));
  }

  // The gate of the run as it was claimed.
  ghost predicate AtGate(c: Config, s: State, w: nat, r: nat, gate: Hooks.Gate) {
    && w in s.workers && s.workers[w].Announced? && s.workers[w].run == r && r in s.db.runs
    && s.db.runs[r].deployment in c.deployments
    && GateOf(c, r, s.db.runs[r], s.workers[w].approved) == gate
  }

  lemma PausesAlone(c: Config, s: State, w: nat, r: nat, gate: Hooks.Gate, id: nat)
    requires AtGate(c, s, w, r, gate) && gate.Pause? && id !in s.db.reviews
    ensures var s' := After(c, s, [OpenReview(w, id), WritePause(w), AnnouncePause(w)]);
            s'.Some? && s'.value.db == Ended(AddReview(s.db, id, r, gate.hook.id), r, REVIEW, Paused(Mark(id, gate.hook.id)))
  {
    hide SubmitLookup, SubmitSelect, SubmitInsert, ReviewerResolves, ReviewerReadsRun, ReviewerRequeues,
         ReviewerAnnouncesApproval, ReviewerWritesDenial, ReviewerAnnouncesDenial, GateOf;
    var s1 := WorkerOpensReview(c, s, w, id).value;
    var s2 := WorkerWritesPause(s1, w).value;
    var s3 := WorkerAnnouncesPause(s2, w).value;
    ThreeSteps(c, s, s1, s2, s3, OpenReview(w, id), WritePause(w), AnnouncePause(w));
  }

  lemma BlocksAlone(c: Config, s: State, w: nat, r: nat, gate: Hooks.Gate)
    requires AtGate(c, s, w, r, gate) && gate.Stop?
    ensures var s' := After(c, s, [WriteBlock(w), AnnounceBlock(w)]);
            s'.Some? && s'.value.db == Ended(s.db, r, BLOCKED, HookBlocked(gate.hook.id))
  {
    hide SubmitLookup, SubmitSelect, SubmitInsert, ReviewerResolves, ReviewerReadsRun, ReviewerRequeues,
         ReviewerAnnouncesApproval, ReviewerWritesDenial, ReviewerAnnouncesDenial, GateOf;
    var s1 := WorkerWritesBlock(c, s, w).value;
    var s2 := WorkerAnnouncesBlock(s1, w).value;
    TwoSteps(c, s, s1, s2, WriteBlock(w), AnnounceBlock(w));
  }

  lemma ExecuteStep(c: Config, s: State, w: nat, r: nat) returns (s1: State)
    requires AtGate(c, s, w, r, Hooks.Open) && !c.deployments[s.db.runs[r].deployment].runtime.Unsupported?
    ensures Step(c, s, Execute(w)) == Some(s1) && s1.db == s.db
    ensures w in s1.workers && s1.workers[w] == Executing(r, s.workers[w].approved)
  {
    hide GateOf;
    s1 := WorkerExecutes(c, s, w).value;
  }

  // The worker executes run r.
  ghost predicate Runs(c: Config, s: State, w: nat, r: nat) {
    && w in s.workers && s.workers[w].Executing? && s.workers[w].run == r && r in s.db.runs
    && s.db.runs[r].deployment in c.deployments
  }

  lemma EndSteps(c: Config, s: State, w: nat, r: nat, ok: bool)
    requires Runs(c, s, w, r)
    requires var t := c.deployments[s.db.runs[r].deployment].runtime; t.Native? || (t.Temporal? && !ok)
    ensures var s' := After(c, s, [WriteEnd(w, ok), AnnounceEnd(w)]);
            s'.Some? && s'.value.db == Ended(s.db, r, if ok then COMPLETED else FAILED, Finished(ok))
  {
    var s1 := WorkerWritesEnd(c, s, w, ok).value;
    var s2 := WorkerAnnouncesEnd(s1, w).value;
    TwoSteps(c, s, s1, s2, WriteEnd(w, ok), AnnounceEnd(w));
  }

  lemma HandOverSteps(c: Config, s: State, w: nat, r: nat)
    requires Runs(c, s, w, r) && c.deployments[s.db.runs[r].deployment].runtime.Temporal?
    ensures var s' := After(c, s, [WriteHandOver(w), AnnounceHandOver(w)]);
            s'.Some? && s'.value.db == Ended(s.db, r, RUNNING, TemporalStarted)
  {
    var s1 := WorkerWritesHandOver(c, s, w).value;
    var s2 := WorkerAnnouncesHandOver(s1, w).value;
    TwoSteps(c, s, s1, s2, WriteHandOver(w), AnnounceHandOver(w));
  }

  lemma FirstThen(c: Config, s: State, l: Label, s1: State, ls: seq<Label>)
    requires Step(c, s, l) == Some(s1)
    ensures After(c, s, [l] + ls) == After(c, s1, ls)
  {
    hide Step;
    assert ([l] + ls)[1..] == ls;
  }

  lemma ExecutesAlone(c: Config, s: State, w: nat, r: nat, ok: bool)
    requires AtGate(c, s, w, r, Hooks.Open)
    requires var t := c.deployments[s.db.runs[r].deployment].runtime; t.Native? || (t.Temporal? && !ok)
    ensures var s' := After(c, s, [Execute(w), WriteEnd(w, ok), AnnounceEnd(w)]);
            s'.Some? && s'.value.db == Ended(s.db, r, if ok then COMPLETED else FAILED, Finished(ok))
  {
    hide Step, After, GateOf, Ended;
    var s1 := ExecuteStep(c, s, w, r);
    EndSteps(c, s1, w, r, ok);
    FirstThen(c, s, Execute(w), s1, [WriteEnd(w, ok), AnnounceEnd(w)]);
    assert [Execute(w)] + [WriteEnd(w, ok), AnnounceEnd(w)] == [Execute(w), WriteEnd(w, ok), AnnounceEnd(w)];
  }

  lemma HandsOverAlone(c: Config, s: State, w: nat, r: nat)
    requires AtGate(c, s, w, r, Hooks.Open)
    requires c.deployments[s.db.runs[r].deployment].runtime.Temporal?
    ensures var s' := After(c, s, [Execute(w), WriteHandOver(w), AnnounceHandOver(w)]);
            s'.Some? && s'.value.db == Ended(s.db, r, RUNNING, TemporalStarted)
  {
    hide Step, After, GateOf, Ended;
    var s1 := ExecuteStep(c, s, w, r);
    HandOverSteps(c, s1, w, r);
    FirstThen(c, s, Execute(w), s1, [WriteHandOver(w), AnnounceHandOver(w)]);
    assert [Execute(w)] + [WriteHandOver(w), AnnounceHandOver(w)] == [Execute(w), WriteHandOver(w), AnnounceHandOver(w)];
  }

  lemma GateAlone(c: Config, s: State, w: nat, r: nat, gate: Hooks.Gate, id: nat, ok: bool)
    requires AtGate(c, s, w, r, gate) && id !in s.db.reviews
    ensures var t := c.deployments[s.db.runs[r].deployment].runtime;
            var s' := After(c, s, GateLabels(w, t, gate, id, ok));
            s'.Some? && s'.value.db == Gated(s.db, r, t, gate, id, ok)
  {
    match gate
    case Pause(_) => PausesAlone(c, s, w, r, gate, id);
    case Stop(_) => BlocksAlone(c, s, w, r, gate);
    case GateRaises =>
    case Open =>
      match c.deployments[s.db.runs[r].deployment].runtime
      case Native => ExecutesAlone(c, s, w, r, ok);
      case Temporal => if ok { HandsOverAlone(c, s, w, r); } else { ExecutesAlone(c, s, w, r, false); }
      case Unsupported =>
  }

  // Claiming and starting a run changes nothing its gate depends on.
  lemma GateOfBegun(c: Config, db: Db, r: nat, approved: seq<string>)
    requires r in db.runs && db.runs[r].deployment in c.deployments
    ensures Begun(db, r).runs[r].deployment == db.runs[r].deployment
    ensures GateOf(c, r, Begun(db, r).runs[r], approved) == GateOf(c, r, db.runs[r], approved)
  {
  }

  lemma PassAlone(c: Config, s: State, w: nat, r: nat, id: nat, ok: bool)
    requires w !in s.workers && r in s.db.runs && r in s.claims && s.db.runs[r].status == QUEUED
    requires s.db.runs[r].deployment in c.deployments && id !in s.db.reviews
    ensures var s' := After(c, s, PassLabels(c, s.db, w, r, id, ok));
            s'.Some? && s'.value.db == Gated(Begun(s.db, r), r, c.deployments[s.db.runs[r].deployment].runtime,
                                             GateOf(c, r, s.db.runs[r], s.db.runs[r].approved), id, ok)
  {
    var gate, t := GateOf(c, r, s.db.runs[r], s.db.runs[r].approved), c.deployments[s.db.runs[r].deployment].runtime;
    var s3 := BeginsAlone(c, s, w, r);
    GateOfBegun(c, s.db, r, s.db.runs[r].approved);
    assert AtGate(c, s3, w, r, gate);
    GateAlone(c, s3, w, r, gate, id, ok);
    AfterConcat(c, s, [Claim(w, r), MarkRunning(w), AnnounceStart(w)], GateLabels(w, t, gate, id, ok));
  }

  lemma {:induction false} WithoutDecisionsLegal(c: Config, s: State, ls: seq<Label>)
    requires After(c, s, ls).Some? && forall l :: l in ls ==> !l.Resolve?
    ensures Legal(c, s, ls, false)
    decreases |ls|
  {
    if |ls| > 0 {
      assert ls[0] in ls;
      WithoutDecisionsLegal(c, Step(c, s, ls[0]).value, ls[1..]);
    }
  }

  // The request runs to its end, and there the invariant and what follows from it hold.
  ghost predicate EndsSafely(c: Config, s: State, ls: seq<Label>) {
    After(c, s, ls).Some? && Inv(c, After(c, s, ls).value) && Safe(After(c, s, ls).value)
  }

  lemma WithoutDecisionsSafe(c: Config, s: State, ls: seq<Label>)
    requires Inv(c, s) && After(c, s, ls).Some? && forall l :: l in ls ==> !l.Resolve?
    ensures EndsSafely(c, s, ls)
  {
    WithoutDecisionsLegal(c, s, ls);
    ExecutionKeepsInv(c, s, ls, false);
    SafeAfter(c, s, ls, After(c, s, ls).value);
  }

  lemma PassDecidesNothing(c: Config, db: Db, w: nat, r: nat, id: nat, ok: bool)
    requires r in db.runs && db.runs[r].deployment in c.deployments
    ensures forall l :: l in PassLabels(c, db, w, r, id, ok) ==> !l.Resolve?
  {
  }

  lemma QueuedCanPass(c: Config, s: State, r: nat)
    requires Inv(c, s) && r in s.db.runs
    ensures r in s.claims && s.db.runs[r].deployment in c.deployments
  {
    assert RunOk(c, s, r);
  }

  // A pass of the worker over any queued run is safe.
  lemma PassSafe(c: Config, s: State, w: nat, r: nat, id: nat, ok: bool)
    requires Inv(c, s) && w !in s.workers && r in s.db.runs && s.db.runs[r].status == QUEUED && id !in s.db.reviews
    ensures s.db.runs[r].deployment in c.deployments
    ensures EndsSafely(c, s, PassLabels(c, s.db, w, r, id, ok))
  {
    QueuedCanPass(c, s, r);
    var ls := PassLabels(c, s.db, w, r, id, ok);
    assert After(c, s, ls).Some? by {
      PassAlone(c, s, w, r, id, ok);
    }
    PassDecidesNothing(c, s.db, w, r, id, ok);
    WithoutDecisionsSafe(c, s, ls);
  }

  // --- The worker ---------------------------------------------------------------------

  class RuntimeHookManager {
    const store: GovernanceStore

    constructor (store: GovernanceStore)
      ensures this.store == store
    {
      this.store := store;
    }

    // evaluate, with _pause_for_review and _block_run: the gate that was found.
    method Evaluate(hooks: seq<Hooks.Hook>, ctx: Hooks.Context) returns (gate: Hooks.Gate)
      requires store.Valid() && ctx.run in store.runs
      modifies store
      ensures store.Valid() && gate == Hooks.Evaluate(hooks, ctx)
      ensures store.Tables() == if gate.Pause? || gate.Stop? then Gated(old(store.Tables()), ctx.run, Unsupported, gate, old(store.supply), true)
                                else old(store.Tables())
    {
      var found := Hooks.FirstMatchingHook(hooks, ctx);
      match found
      case ScanRaises =>
        gate := Hooks.GateRaises;
      case Nothing =>
        gate := Hooks.Open;
      case Found(hook) =>
        match hook.action
        case ContinueRun =>
          gate := Hooks.Open;
        case Block =>
          var updated := store.UpdateStatus(ctx.run, BLOCKED);
          var told := store.AddOutboxEvent(ctx.run, HookBlocked(hook.id));
          gate := Hooks.Stop(hook);
        case _ =>
          var id := store.AddReviewItem(ctx.run, hook.id);
          var updated := store.UpdateStatus(ctx.run, REVIEW);
          var told := store.AddOutboxEvent(ctx.run, Paused(Mark(id, hook.id)));
          gate := Hooks.Pause(hook);
    }
  }

  datatype Pass =
    | Idle            // nothing to claim
    | Worked(run: nat)
    | Raised(run: nat) // a condition of a hook, or the runner factory

  // Claiming a run changes nothing its gate depends on.
  lemma ClaimKeepsGate(c: Config, db: Db, r: nat)
    requires r in db.runs && db.runs[r].deployment in c.deployments
    ensures var db' := ClaimRun(db, r);
            && db'.runs[r].deployment == db.runs[r].deployment
            && GateOf(c, r, db'.runs[r], db'.runs[r].approved) == GateOf(c, r, db.runs[r], db.runs[r].approved)
  {
  }

  class RuntimeWorker {
    const config: Config
    const store: GovernanceStore

    constructor (config: Config, store: GovernanceStore)
      ensures this.config == config && this.store == store
    {
      this.config, this.store := config, store;
    }

    // The pass over a claimed run.
    method Process(r: nat, ok: bool) returns (pass: Pass)
      requires store.Valid() && r in store.runs && store.runs[r].deployment in config.deployments
      modifies store
      ensures store.Valid() && !pass.Idle? && pass.run == r
      ensures var db := old(store.Tables());
              var runtime := config.deployments[db.runs[r].deployment].runtime;
              var gate := GateOf(config, r, db.runs[r], db.runs[r].approved);
              && store.Tables() == Gated(AppendEvent(SetStatus(db, r, RUNNING), r, Started), r, runtime, gate, old(store.supply), ok)
              && (pass.Raised? <==> gate.GateRaises? || (gate.Open? && runtime.Unsupported?))
    {
      hide Hooks.Evaluate;
      var row := store.runs[r];
      var updated := store.UpdateStatus(r, RUNNING);
      var told := store.AddOutboxEvent(r, Started);
      var deployment := config.deployments[row.deployment];
      var manager := new RuntimeHookManager(store);
      var gate := manager.Evaluate(deployment.hooks, ContextOf(config, r, row, row.approved));
      if gate.Pause? || gate.Stop? {
        return Worked(r);
      }
      if gate.GateRaises? || deployment.runtime == Unsupported {
        return Raised(r);
      }
      updated := store.UpdateStatus(r, if !ok then FAILED else if deployment.runtime == Temporal then RUNNING else COMPLETED);
      told := store.AddOutboxEvent(r, if !ok then Finished(false) else if deployment.runtime == Temporal then TemporalStarted else Finished(true));
      pass := Worked(r);
    }

    // run_once. If s is a protocol state with these tables and w an unused worker id, the
    // pass leaves the tables that the steps of w alone leave.
    method RunOnce(ok: bool, ghost s: State, ghost w: nat) returns (pass: Pass)
      requires store.Valid() && s.db == store.Tables() && w !in s.workers && s.claims.Keys == s.db.runs.Keys
      modifies store
      ensures store.Valid()
      ensures pass.Idle? ==> store.Tables() == s.db && forall r :: r in s.db.runs ==> s.db.runs[r].status != QUEUED
      ensures !pass.Idle? ==> old(store.OldestQueued(pass.run))
      ensures !pass.Idle? && s.db.runs[pass.run].deployment !in config.deployments ==>
                pass.Worked? && store.Tables() == Ended(ClaimRun(s.db, pass.run), pass.run, FAILED, Finished(false))
      ensures !pass.Idle? && s.db.runs[pass.run].deployment in config.deployments ==>
                var s' := After(config, s, PassLabels(config, s.db, w, pass.run, old(store.supply), ok));
                && s'.Some? && s'.value.db == store.Tables()
                && var gate := GateOf(config, pass.run, s.db.runs[pass.run], s.db.runs[pass.run].approved);
                   (pass.Raised? <==> gate.GateRaises? || (gate.Open? && config.deployments[s.db.runs[pass.run].deployment].runtime.Unsupported?))
    {
      hide After, PassLabels, Gated, GateOf, SetStatus, AppendEvent;
      var item := store.ClaimNextQueued();
      if item.None? {
        return Idle;
      }
      var r, row := item.value, store.runs[item.value];
      if row.deployment !in config.deployments {
        var updated := store.UpdateStatus(r, FAILED);
        var told := store.AddOutboxEvent(r, Finished(false));
        return Worked(r);
      }
      PassAlone(config, s, w, r, old(store.supply), ok);
      ClaimKeepsGate(config, s.db, r);
      pass := Process(r, ok);
    }
  }

  // --- Resolving a review -----------------------------------------------------------------

  lemma ResolutionAlone(c: Config, s: State, v: nat, id: nat, approve: bool)
    requires v !in s.reviewers && id in s.db.reviews && s.db.reviews[id].run in s.db.runs
    ensures var s' := After(c, s, Decision(v, id, approve));
            s'.Some? && s'.value.db == Resolution(s.db, id, approve)
  {
    var ss := DecisionRuns(c, s, v, id, approve);
    ChainAfter(c, ss, Decision(v, id, approve));
  }

  class RuntimeReviewResumeService {
    const store: GovernanceStore

    constructor (store: GovernanceStore)
      ensures this.store == store
    {
      this.store := store;
    }

    method Approve(id: nat, r: nat, hook: string) returns (applied: bool)
      requires store.Valid()
      modifies store
      ensures store.Valid() && (applied <==> r in old(store.runs))
      ensures var db := old(store.Tables());
              store.Tables() == if applied then AppendEvent(RequeueRun(db, r, WithHook(db.runs[r].approved, hook)), r, Approved(Mark(id, hook)))
                                else db
    {
      if r !in store.runs {
        return false;
      }
      var approved := store.runs[r].approved;
      if hook !in approved {
        approved := approved + [hook];
      }
      var updated := store.Requeue(r, approved);
      var told := store.AddOutboxEvent(r, Approved(Mark(id, hook)));
      applied := true;
    }

    method Deny(id: nat, r: nat, hook: string) returns (applied: bool)
      requires store.Valid()
      modifies store
      ensures store.Valid() && (applied <==> r in old(store.runs))
      ensures store.Tables() == if applied then Ended(old(store.Tables()), r, BLOCKED, Denied(Mark(id, hook))) else old(store.Tables())
    {
      if r !in store.runs {
        return false;
      }
      var updated := store.UpdateStatus(r, BLOCKED);
      var told := store.AddOutboxEvent(r, Denied(Mark(id, hook)));
      applied := true;
    }

    // The endpoint: the item is resolved whatever its status, then the run resumes.
    method ResolveReview(c: Config, id: nat, approve: bool, ghost s: State, ghost v: nat) returns (applied: bool)
      requires store.Valid() && s.db == store.Tables() && v !in s.reviewers
      modifies store
      ensures store.Valid()
      ensures applied <==> id in s.db.reviews && s.db.reviews[id].run in s.db.runs
      ensures applied ==> After(c, s, Decision(v, id, approve)).Some? && After(c, s, Decision(v, id, approve)).value.db == store.Tables()
      ensures id !in s.db.reviews ==> store.Tables() == s.db
    {
      if id !in store.reviews {
        return false;
      }
      var review := store.reviews[id];
      var found := store.ResolveReviewItem(id, if approve then Accepted else Refused);
      if review.run in s.db.runs {
        ResolutionAlone(c, s, v, id, approve);
      }
      if approve {
        applied := Approve(id, review.run, review.hook);
      } else {
        applied := Deny(id, review.run, review.hook);
      }
    }
  }

  // --- Submitting ---------------------------------------------------------------------------

  datatype Answer =
    | NoDeployment
    | AlreadyActive(run: nat)
    | Existing(run: nat)
    | Created(run: nat)
    | IndexClash

  lemma SubmitsAlone(c: Config, s: State, u: nat, d: string, key: Option<string>, q: string, r: nat)
    requires u !in s.submits && d in c.deployments && Finds(s.db, d, key, None) && r !in s.db.runs && r !in s.db.outbox
    ensures var s' := After(c, s, [Lookup(u, d, key, q, None), SelectKey(u, None), Insert(u, r)]);
            && s'.Some?
            && (if c.indexed && key.Some? && KeyTaken(s.db, d, key) then s'.value.db == s.db && s'.value.receipts == s.receipts
                else s'.value.db == CreateRun(s.db, r, d, key, q) && s'.value.receipts == s.receipts + [Receipt(d, key, r)])
  {
    var s1 := SubmitLookup(c, s, u, d, key, q, None).value;
    var s2 := SubmitSelect(s1, u, None).value;
    var s3 := SubmitInsert(c, s2, u, r).value;
    ThreeSteps(c, s, s1, s2, s3, Lookup(u, d, key, q, None), SelectKey(u, None), Insert(u, r));
  }

  class RuntimeRunDispatcher {
    const config: Config
    const store: GovernanceStore

    constructor (config: Config, store: GovernanceStore)
      ensures this.config == config && this.store == store
    {
      this.config, this.store := config, store;
    }

    // submit, on the store-backed queue, which has no depth and needs no enqueue.
    method Submit(d: string, query: string, key: Option<string>, ghost s: State, ghost u: nat) returns (answer: Answer)
      requires store.Valid() && s.db == store.Tables() && u !in s.submits && config.indexed == store.indexed
      modifies store
      ensures store.Valid()
      ensures answer.NoDeployment? <==> d !in config.deployments
      ensures answer.AlreadyActive? || answer.Existing? ==>
                && Finds(s.db, d, key, Some(answer.run)) && store.Tables() == s.db
                && (answer.AlreadyActive? <==> s.db.runs[answer.run].status in {PENDING, QUEUED, RUNNING})
                && Step(config, s, Lookup(u, d, key, query, Some(answer.run))) ==
                   Some(if answer.AlreadyActive? then s else s.(receipts := s.receipts + [Receipt(d, key, answer.run)]))
      ensures answer.Created? || answer.IndexClash? ==>
                && Finds(s.db, d, key, None)
                && var r := old(store.supply);
                   var s' := After(config, s, [Lookup(u, d, key, query, None), SelectKey(u, None), Insert(u, r)]);
                   && s'.Some? && s'.value.db == store.Tables()
                   && (answer.Created? ==> answer.run == r && r in store.runs && r !in s.db.runs)
                   && s'.value.receipts == if answer.Created? then s.receipts + [Receipt(d, key, r)] else s.receipts
      ensures !answer.Created? ==> store.Tables() == s.db
    {
      if d !in config.deployments {
        return NoDeployment;
      }
      if key.Some? && key.value != "" {
        var existing := store.FindByKey(d, key.value);
        if existing.Some? {
          if Active(store.runs[existing.value].status) {
            return AlreadyActive(existing.value);
          }
          return Existing(existing.value);
        }
      }
      SubmitsAlone(config, s, u, d, key, query, store.supply);
      var run := store.CreateRuntimeRun(d, key, query);
      answer := if run.Some? then Created(run.value) else IndexClash;
    }
  }
}
