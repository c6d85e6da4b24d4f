// Runtime hooks of a deployment and the gate a worker evaluates before it runs
// a workflow (intelliguard/runtime/hooks.py, intelliguard/adk/hooks.py).
module RuntimeHooks {
  import opened Outcomes

  // A value of a hook condition or of the hook context. Generated run ids are
  // modelled by number, so that they get a constructor of their own.
  datatype Value =
    | Null
    | Truth(b: bool)
    | Number(n: int)
    | Text(s: string)
    | Items(items: seq<Value>)
    | RunRef(run: nat)

  datatype HookAction = ContinueRun | PauseForReview | Block | Escalate

  datatype Condition = Condition(key: string, wanted: Value)

  datatype Hook = Hook(id: string, point: string, action: HookAction, conditions: seq<Condition>)

  // What the worker knows at the before_workflow gate: no agent, node, tool,
  // risk score or metadata (workers/runtime.py:64-75).
  datatype Context = Context(
    run: nat,
    deploymentId: string,
    definitionId: string,
    environment: string,
    point: string,
    query: string,
    approved: seq<string>)

  const BEFORE_WORKFLOW := "before_workflow"

  // --- Conditions ---------------------------------------------------------

  function Digits(s: string): Option<nat> {
    if |s| == 0 then None
    else if !('0' <= s[|s| - 1] <= '9') then None
    else
      var d := s[|s| - 1] as int - '0' as int;
      if |s| == 1 then Some(d)
      else match Digits(s[..|s| - 1]) case Some(n) => Some(10 * n + d) case None => None
  }

  function IntOfText(s: string): Option<int> {
    if |s| > 0 && s[0] == '-' then
      var magnitude := Digits(s[1..]);
      if magnitude.Some? then Some(0 - magnitude.value) else None
    else if |s| > 0 && s[0] == '+' then
      Digits(s[1..])
    else
      Digits(s)
  }

  // int(x) raises for None, lists and text that is not a number.
  function IntOf(v: Value): Option<int> {
    match v
    case Number(n) => Some(n)
    case Truth(b) => Some(if b then 1 else 0)
    case Text(s) => IntOfText(s)
    case _ => None
  }

  function ContextValue(ctx: Context, key: string): Value {
    if key == "run_id" then RunRef(ctx.run)
    else if key == "deployment_id" then Text(ctx.deploymentId)
    else if key == "workflow_definition_id" then Text(ctx.definitionId)
    else if key == "environment" then Text(ctx.environment)
    else if key == "hook_point" then Text(ctx.point)
    else if key == "user_query" then Text(ctx.query)
    else if key == "approved_hook_ids" then Items(seq(|ctx.approved|, i requires 0 <= i < |ctx.approved| => Text(ctx.approved[i])))
    else Null
  }

  datatype Verdict = Holds | Fails | Raises

  // One entry of the conditions dictionary.
  function Check(c: Condition, ctx: Context): Verdict {
    if c.key == "min_risk_score" then
      match IntOf(c.wanted)
      case None => Raises
      case Some(n) => if 0 < n then Fails else Holds
    else
      var actual := ContextValue(ctx, c.key);
      if c.wanted.Items? then
        if actual in c.wanted.items then Holds else Fails
      else if actual == c.wanted then Holds
      else Fails
  }

  // All entries, in the order of the dictionary, up to the first that does not hold.
  function CheckAll(conditions: seq<Condition>, ctx: Context): Verdict {
    if |conditions| == 0 then Holds
    else if Check(conditions[0], ctx) != Holds then Check(conditions[0], ctx)
    else CheckAll(conditions[1..], ctx)
  }

  // The loop of _conditions_match, and what its answer means.
  method ConditionsMatch(conditions: seq<Condition>, ctx: Context) returns (v: Verdict)
    ensures v == CheckAll(conditions, ctx)
    ensures v == Holds <==> forall i :: 0 <= i < |conditions| ==> Check(conditions[i], ctx) == Holds
    ensures v == Raises ==>
              exists i :: 0 <= i < |conditions| && Check(conditions[i], ctx) == Raises
                          && forall j :: 0 <= j < i ==> Check(conditions[j], ctx) == Holds
  {
    var i := 0;
    while i < |conditions|
      invariant 0 <= i <= |conditions|
      invariant forall j :: 0 <= j < i ==> Check(conditions[j], ctx) == Holds
      invariant CheckAll(conditions, ctx) == CheckAll(conditions[i..], ctx)
    {
      v := Check(conditions[i], ctx);
      if v != Holds {
        return;
      }
      assert conditions[i..][1..] == conditions[i + 1..];
      i := i + 1;
    }
    v := Holds;
  }

  // --- The scan -----------------------------------------------------------

  // Whether the scan stops at this hook, and how.
  function Stops(h: Hook, ctx: Context): Verdict {
    if h.id in ctx.approved || h.point != ctx.point then Fails
    else CheckAll(h.conditions, ctx)
  }

  datatype Scan = Nothing | Found(hook: Hook) | ScanRaises

  function FirstMatch(hooks: seq<Hook>, ctx: Context): Scan {
    if |hooks| == 0 then Nothing
    else match Stops(hooks[0], ctx)
      case Holds => Found(hooks[0])
      case Raises => ScanRaises
      case Fails => FirstMatch(hooks[1..], ctx)
  }

  method FirstMatchingHook(hooks: seq<Hook>, ctx: Context) returns (found: Scan)
    ensures found == FirstMatch(hooks, ctx)
  {
    var i := 0;
    while i < |hooks|
      invariant 0 <= i <= |hooks|
      invariant FirstMatch(hooks, ctx) == FirstMatch(hooks[i..], ctx)
    {
      var hook := hooks[i];
      assert hooks[i..][1..] == hooks[i + 1..];
      if hook.id !in ctx.approved && hook.point == ctx.point {
        var v := ConditionsMatch(hook.conditions, ctx);
        if v == Holds {
          return Found(hook);
        }
        if v == Raises {
          return ScanRaises;
        }
      }
      i := i + 1;
    }
    found := Nothing;
  }

  datatype Gate = Open | Pause(hook: Hook) | Stop(hook: Hook) | GateRaises

  function Evaluate(hooks: seq<Hook>, ctx: Context): Gate {
    match FirstMatch(hooks, ctx)
    case Nothing => Open
    case ScanRaises => GateRaises
    case Found(h) =>
      match h.action
      case ContinueRun => Open
      case PauseForReview => Pause(h)
      case Escalate => Pause(h)
      case Block => Stop(h)
  }

  // --- What the gate means ------------------------------------------------

  // Position k is where the scan ends: the first hook that stops it, or the end.
  ghost predicate ScanEndsAt(hooks: seq<Hook>, ctx: Context, k: nat) {
    && k <= |hooks|
    && (forall i :: 0 <= i < k ==> Stops(hooks[i], ctx) == Fails)
    && (k < |hooks| ==> Stops(hooks[k], ctx) != Fails)
  }

  lemma {:induction false} ScanEnds(hooks: seq<Hook>, ctx: Context) returns (k: nat)
    ensures ScanEndsAt(hooks, ctx, k)
    ensures FirstMatch(hooks, ctx) ==
            if k == |hooks| then Nothing
            else if Stops(hooks[k], ctx) == Holds then Found(hooks[k])
            else ScanRaises
  {
    if |hooks| == 0 {
      k := 0;
    } else if Stops(hooks[0], ctx) != Fails {
      k := 0;
    } else {
      var k' := ScanEnds(hooks[1..], ctx);
      k := k' + 1;
      forall i | 0 <= i < k ensures Stops(hooks[i], ctx) == Fails {
        if i > 0 { assert hooks[i] == hooks[1..][i - 1]; }
      }
      if k < |hooks| { assert hooks[k] == hooks[1..][k']; }
    }
  }

  // The first k hooks let the run pass: the next one is an unapproved matching continue hook,
  // if there is one, and every hook of this point before it whose conditions hold had been
  // approved by its id.
  ghost predicate ClearedUpTo(hooks: seq<Hook>, ctx: Context, k: nat) {
    && k <= |hooks|
    && (k < |hooks| ==> hooks[k].action == ContinueRun && Stops(hooks[k], ctx) == Holds)
    && forall i :: 0 <= i < k && hooks[i].point == ctx.point && CheckAll(hooks[i].conditions, ctx) != Fails
         ==> hooks[i].id in ctx.approved
  }

  ghost predicate Cleared(hooks: seq<Hook>, ctx: Context) {
    exists k: nat :: ClearedUpTo(hooks, ctx, k)
  }

  // The gate opens exactly for cleared runs.
  lemma GateOpensIffCleared(hooks: seq<Hook>, ctx: Context)
    ensures Evaluate(hooks, ctx) == Open <==> Cleared(hooks, ctx)
  {
    var k := ScanEnds(hooks, ctx);
    if Evaluate(hooks, ctx) == Open {
      forall i | 0 <= i < k && hooks[i].point == ctx.point && CheckAll(hooks[i].conditions, ctx) != Fails
        ensures hooks[i].id in ctx.approved
      {
        assert Stops(hooks[i], ctx) == Fails;
      }
      assert ClearedUpTo(hooks, ctx, k);
    }
    if Cleared(hooks, ctx) {
      var m: nat :| ClearedUpTo(hooks, ctx, m);
    }
  }

  // A hook that stops the run is one of the deployment's, not approved so far,
  // and every stopping hook before it had been approved.
  lemma GateStopsAtUnapproved(hooks: seq<Hook>, ctx: Context)
    ensures var g := Evaluate(hooks, ctx);
            g.Pause? || g.Stop? ==>
              && g.hook in hooks
              && g.hook.id !in ctx.approved
              && g.hook.point == ctx.point
              && CheckAll(g.hook.conditions, ctx) == Holds
              && (g.Stop? <==> g.hook.action == Block)
              && (g.Pause? <==> g.hook.action == PauseForReview || g.hook.action == Escalate)
  {
    var k := ScanEnds(hooks, ctx);
  }
}
