// The ledger of governed tool calls: mode, failed-call feedback and idempotent replay
// (intelliguard/governance/runner.py:80-312, 463-531; persistence/store.py:2416-2463,
// 2558-2570).
module ToolLedger {
  import opened Outcomes
  import opened Json
  import opened RiskAssessment

  datatype Mode = Enforce | ReviewOnly | Disabled

  // A row of tool_calls. Pre-tool refusals have no key and no result.
  datatype Row = Row(session: string, agent: string, tool: string, key: Option<string>, decision: Decision, result: Value)

  // What running the tool would do; Unregistered has no side-effect level either.
  datatype Behaviour = Unregistered | Raises | Returns(result: Value)

  datatype Request = Request(
    session: string,
    agent: string,
    call: Call,
    key: Option<string>,
    mode: Mode,
    policy: Policy,
    write: bool,
    behaviour: Behaviour)

  datatype Outcome =
    | Replayed(row: Row)          // the stored row is returned
    | Refused(decision: Decision) // the tool did not run
    | DetectorError               // the assessment raised; the tool did not run
    | KeyError                    // the tool is not registered
    | RuntimeError                // the tool ran and raised; no row
    | Duplicate                   // the tool ran, and its row violates the unique index
    | Blocked                     // the tool ran; its result is withheld
    | Allowed(result: Value)      // the tool ran; its result is returned

  predicate Completes(o: Outcome) {
    o.Duplicate? || o.Blocked? || o.Allowed?
  }

  // --- The store --------------------------------------------------------------------

  predicate Fails(r: Row, session: string) {
    r.session == session && r.decision in {BLOCK, REVIEW}
  }

  function Failures(rows: seq<Row>, session: string): nat {
    if |rows| == 0 then 0
    else Failures(rows[..|rows| - 1], session) + (if Fails(rows[|rows| - 1], session) then 1 else 0)
  }

  predicate KeyedRow(r: Row, agent: string, tool: string, key: string) {
    r.agent == agent && r.tool == tool && r.key == Some(key)
  }

  // The newest row of a key.
  function ByKey(rows: seq<Row>, agent: string, tool: string, key: string): (r: Option<Row>)
    ensures r.Some? ==> r.value in rows && KeyedRow(r.value, agent, tool, key)
    ensures r.None? ==> forall x :: x in rows ==> !KeyedRow(x, agent, tool, key)
  {
    if |rows| == 0 then None
    else if KeyedRow(rows[|rows| - 1], agent, tool, key) then Some(rows[|rows| - 1])
    else ByKey(rows[..|rows| - 1], agent, tool, key)
  }

  // --- One call ----------------------------------------------------------------------

  function ApplyMode(mode: Mode, d: Decision): Decision {
    if mode == ReviewOnly && d == BLOCK then REVIEW else d
  }

  // The decision before the tool runs; None is an exception.
  function PreDecision(rows: seq<Row>, q: Request, h: Host): Option<Decision> {
    if q.mode == Disabled then Some(ALLOW)
    else if FilterRaises(q.call) then None
    else Some(ApplyMode(q.mode, Assess(q.policy, CallFindings(q.policy, h, q.call, Failures(rows, q.session))).decision))
  }

  function ResultDecision(q: Request, result: Value): Decision {
    ApplyMode(q.mode, AssessResult(q.policy, result).decision)
  }

  // The row a completed call leaves, if the index admits it.
  function CompletedRow(q: Request, result: Value): Row {
    Row(q.session, q.agent, q.call.tool, if q.write then q.key else None, ResultDecision(q, result), result)
  }

  predicate Violates(rows: seq<Row>, r: Row) {
    r.key.Some? && ByKey(rows, r.agent, r.tool, r.key.value).Some?
  }

  function Prior(rows: seq<Row>, q: Request): Option<Row> {
    if q.write && q.key.Some? && q.key.value != "" then ByKey(rows, q.agent, q.call.tool, q.key.value) else None
  }

  function Serve(rows: seq<Row>, q: Request, h: Host): (seq<Row>, Outcome) {
    if Prior(rows, q).Some? then (rows, Replayed(Prior(rows, q).value))
    else
      var pre := PreDecision(rows, q, h);
      if pre.None? then (rows, DetectorError)
      else if pre != Some(ALLOW) then (rows + [Row(q.session, q.agent, q.call.tool, None, pre.value, Null)], Refused(pre.value))
      else match q.behaviour
        case Unregistered => (rows, KeyError)
        case Raises => (rows, RuntimeError)
        case Returns(result) =>
          var row := CompletedRow(q, result);
          if Violates(rows, row) then (rows, Duplicate)
          else (rows + [row], if row.decision == BLOCK then Blocked else Allowed(result))
  }

  // --- The runner, over its store ---------------------------------------------------------

  class ToolCallStore {
    var rows: seq<Row>

    constructor ()
      ensures rows == []
    {
      rows := [];
    }

    method CountFailedToolCalls(session: string) returns (n: nat)
      ensures n == Failures(rows, session)
    {
      n := 0;
      for i := 0 to |rows|
        invariant n == Failures(rows[..i], session)
      {
        assert rows[..i + 1][..i] == rows[..i];
        if rows[i].session == session && rows[i].decision in {BLOCK, REVIEW} {
          n := n + 1;
        }
      }
      assert rows[..|rows|] == rows;
    }

    method GetByIdempotencyKey(agent: string, tool: string, key: string) returns (r: Option<Row>)
      ensures r == ByKey(rows, agent, tool, key)
    {
      var i := |rows|;
      assert rows[..i] == rows;
      while i > 0
        invariant 0 <= i <= |rows|
        invariant ByKey(rows, agent, tool, key) == ByKey(rows[..i], agent, tool, key)
      {
        i := i - 1;
        assert rows[..i + 1][..i] == rows[..i];
        if rows[i].agent == agent && rows[i].tool == tool && rows[i].key == Some(key) {
          return Some(rows[i]);
        }
      }
      r := None;
    }

    // The partial unique index takes no second row of a key that is not null.
    method AddToolCall(row: Row) returns (ok: bool)
      modifies this
      ensures ok <==> !Violates(old(rows), row)
      ensures rows == if ok then old(rows) + [row] else old(rows)
    {
      if row.key.Some? {
        var clash := GetByIdempotencyKey(row.agent, row.tool, row.key.value);
        if clash.Some? {
          return false;
        }
      }
      rows := rows + [row];
      ok := true;
    }
  }

  class GovernedToolRunner {
    const store: ToolCallStore
    const host: Host

    constructor (store: ToolCallStore, host: Host)
      ensures this.store == store && this.host == host
    {
      this.store, this.host := store, host;
    }

    // evaluate_tool_call and _record_pre_tool_decision
    method EvaluateToolCall(q: Request) returns (decision: Option<Decision>)
      modifies store
      ensures decision == PreDecision(old(store.rows), q, host)
      ensures store.rows == if decision in {None, Some(ALLOW)} then old(store.rows)
                            else old(store.rows) + [Row(q.session, q.agent, q.call.tool, None, decision.value, Null)]
    {
      hide Assess, CallFindings, FilterRaises, Due;
      if q.mode == Disabled {
        return Some(ALLOW);
      }
      var failures := store.CountFailedToolCalls(q.session);
      var assessment := AssessToolCall(q.policy, host, q.call, failures);
      if assessment.None? {
        return None;
      }
      decision := Some(ApplyMode(q.mode, assessment.value.decision));
      if decision.value != ALLOW {
        var ok := store.AddToolCall(Row(q.session, q.agent, q.call.tool, None, decision.value, Null));
      }
    }

    method CallTool(q: Request) returns (o: Outcome)
      modifies store
      ensures (store.rows, o) == Serve(old(store.rows), q, host)
    {
      hide PreDecision, Assess, CallFindings;
      if q.key.Some? && q.key.value != "" && q.write {
        var prior := store.GetByIdempotencyKey(q.agent, q.call.tool, q.key.value);
        if prior.Some? {
          return Replayed(prior.value);
        }
      }
      var decision := EvaluateToolCall(q);
      if decision.None? {
        return DetectorError;
      }
      if decision.value != ALLOW {
        return Refused(decision.value);
      }
      match q.behaviour
      case Unregistered =>
        o := KeyError;
      case Raises =>
        o := RuntimeError;
      case Returns(result) =>
        var row := CompletedRow(q, result);
        var ok := store.AddToolCall(row);
        if !ok {
          return Duplicate;
        }
        o := if row.decision == BLOCK then Blocked else Allowed(result);
    }
  }

  // --- What a call comes to --------------------------------------------------------------------

  ghost predicate FilterIsNoDict(c: Call) {
    c.tool == "search_customers" && "filter" in c.args && Truthy(c.args["filter"]) && !c.args["filter"].Object?
  }

  // The rows of write calls under this key.
  ghost predicate Stored(rows: seq<Row>, q: Request) {
    q.write && q.key.Some? && q.key.value != ""
    && exists r :: r in rows && r.agent == q.agent && r.tool == q.call.tool && r.key == q.key
  }

  // Whether the findings of the call reach a threshold of its policy.
  ghost predicate Found(rows: seq<Row>, q: Request, h: Host, threshold: int) {
    Reaches(q.policy, h, q.call, Failures(rows, q.session), threshold)
  }

  // The decision of the result check, which only review mode softens.
  ghost predicate Checked(q: Request, result: Value, d: Decision) {
    var score := if TooLarge(q.policy, result) then 85 else 0;
    && (d == BLOCK <==> score >= q.policy.block && q.mode != ReviewOnly)
    && (d == ALLOW <==> score < q.policy.block && score < q.policy.review)
  }

  lemma ModeMeans(rows: seq<Row>, q: Request, h: Host)
    requires q.mode != Disabled && !FilterIsNoDict(q.call)
    ensures var d := PreDecision(rows, q, h);
            && d.Some?
            && (d == Some(BLOCK) <==> Found(rows, q, h, q.policy.block) && q.mode == Enforce)
            && (d == Some(ALLOW) <==> !Found(rows, q, h, q.policy.block) && !Found(rows, q, h, q.policy.review))
  {
    hide CallFindings, Assess, Reaches;
    DecisionMeans(q.policy, h, q.call, Failures(rows, q.session));
  }

  // A keyed write call with a stored row is replayed. Otherwise the tool runs unless the
  // findings reach a threshold or the assessment raises; only disabled guardrails let
  // every call through.
  lemma CallMeans(rows: seq<Row>, q: Request, h: Host)
    ensures var o := Serve(rows, q, h).1;
            && (o.Replayed? <==> Stored(rows, q))
            && (o == DetectorError <==> !Stored(rows, q) && q.mode != Disabled && FilterIsNoDict(q.call))
            && (o.Refused? <==> !Stored(rows, q) && q.mode != Disabled && !FilterIsNoDict(q.call)
                                && (Found(rows, q, h, q.policy.block) || Found(rows, q, h, q.policy.review)))
            && (o.Refused? ==> o.decision == if Found(rows, q, h, q.policy.block) && q.mode == Enforce then BLOCK else REVIEW)
            && (!o.Replayed? && !o.Refused? && o != DetectorError ==>
                  && (q.behaviour == Unregistered <==> o == KeyError)
                  && (q.behaviour == Raises <==> o == RuntimeError)
                  && (q.behaviour.Returns? <==> Completes(o)))
  {
    hide CallFindings, Assess, Found, ResultDecision, Violates;
    if q.mode != Disabled && !FilterIsNoDict(q.call) {
      ModeMeans(rows, q, h);
    }
  }

  // A call that completes leaves the row of its result, under its key if the tool writes.
  lemma CompletionMeans(rows: seq<Row>, q: Request, h: Host)
    requires Completes(Serve(rows, q, h).1)
    ensures q.behaviour.Returns?
    ensures var (rows', o) := Serve(rows, q, h);
            var key := if q.write then q.key else None;
            && (o == Duplicate <==>
                  key.Some? && exists r :: r in rows && r.agent == q.agent && r.tool == q.call.tool && r.key == key)
            && (o == Duplicate ==> rows' == rows)
            && (o != Duplicate ==>
                  exists d :: Checked(q, q.behaviour.result, d)
                    && rows' == rows + [Row(q.session, q.agent, q.call.tool, key, d, q.behaviour.result)]
                    && o == if d == BLOCK then Blocked else Allowed(q.behaviour.result))
  {
    hide PreDecision, AssessResult;
    ResultMeans(q.policy, q.behaviour.result);
    var d := ResultDecision(q, q.behaviour.result);
    assert Checked(q, q.behaviour.result, d);
  }

  // --- The failed-call ratchet ----------------------------------------------------------------

  lemma FailuresSnoc(rows: seq<Row>, r: Row, session: string)
    ensures Failures(rows + [r], session) == Failures(rows, session) + (if Fails(r, session) then 1 else 0)
  {
    assert (rows + [r])[..|rows|] == rows;
  }

  predicate Guarded(q: Request) {
    q.mode != Disabled && (q.policy.review <= 55 || q.policy.block <= 55)
  }

  // With three failed calls in the session, a guarded call that is no replay is refused,
  // unless its assessment raises: its tool does not run, and a refusal adds exactly one
  // more failed row.
  lemma RatchetStep(rows: seq<Row>, q: Request, h: Host)
    requires Failures(rows, q.session) >= 3 && Guarded(q) && Prior(rows, q).None?
    ensures var (rows', o) := Serve(rows, q, h);
            if FilterRaises(q.call) then o == DetectorError && rows' == rows
            else
              && o.Refused? && !Completes(o)
              && |rows'| == |rows| + 1 && rows' == rows + [rows'[|rows|]]
              && Failures(rows', q.session) == Failures(rows, q.session) + 1
  {
    hide CallFindings, Assess, Failures, ByKey, FilterRaises;
    if FilterRaises(q.call) {
      return;
    }
    RepeatedIff(q.policy, h, q.call, Failures(rows, q.session));
    AllowedIff(q.policy, CallFindings(q.policy, h, q.call, Failures(rows, q.session)));
    var row := Row(q.session, q.agent, q.call.tool, None, PreDecision(rows, q, h).value, Null);
    FailuresSnoc(rows, row, q.session);
  }

  lemma OneMore(p: Policy, h: Host, c: Call, failures: nat)
    requires failures >= 3
    ensures CallFindings(p, h, c, failures) == CallFindings(p, h, c, 0) + [Finding(RepeatedFailures, 55)]
  {
    hide RuleFindings, PatternFindings, Bulk, WantsEmail;
    assert ToolFindings(p, h, c, failures) == ToolFindings(p, h, c, 0) + [Finding(RepeatedFailures, 55)];
  }

  // The thresholds are exactly what the ratchet needs: a call that is otherwise allowed is
  // refused after three failures if and only if one of them is at most 55.
  lemma RatchetIff(rows: seq<Row>, q: Request, h: Host)
    requires q.mode != Disabled && Prior(rows, q).None? && Failures(rows, q.session) >= 3
    requires Assess(q.policy, CallFindings(q.policy, h, q.call, 0)).decision == ALLOW
    ensures Serve(rows, q, h).1.Refused? <==> !FilterRaises(q.call) && (q.policy.review <= 55 || q.policy.block <= 55)
  {
    hide FilterRaises, Assess, Failures, ByKey, RuleFindings, PatternFindings, CallFindings, ToolFindings;
    var fs, gs := CallFindings(q.policy, h, q.call, 0), CallFindings(q.policy, h, q.call, Failures(rows, q.session));
    AllowedIff(q.policy, fs);
    AllowedIff(q.policy, gs);
    OneMore(q.policy, h, q.call, Failures(rows, q.session));
    assert gs[|gs| - 1].score == 55;
    assert forall i :: 0 <= i < |fs| ==> gs[i] == fs[i];
  }

  // --- Sequences of calls ------------------------------------------------------------------------

  // The rows and the outcomes of a sequence of atomic calls.
  function ServeAll(rows: seq<Row>, qs: seq<Request>, h: Host): (r: (seq<Row>, seq<Outcome>))
    ensures |r.1| == |qs|
  {
    if |qs| == 0 then (rows, [])
    else
      var (before, os) := ServeAll(rows, qs[..|qs| - 1], h);
      var (after, o) := Serve(before, qs[|qs| - 1], h);
      (after, os + [o])
  }

  // How many calls of the session were refused.
  function Refusals(qs: seq<Request>, os: seq<Outcome>, session: string): nat
    requires |os| == |qs|
  {
    if |qs| == 0 then 0
    else
      var last := |qs| - 1;
      Refusals(qs[..last], os[..last], session) + (if qs[last].session == session && os[last].Refused? then 1 else 0)
  }

  // A call of another session leaves the failures of this one alone.
  lemma OtherSession(rows: seq<Row>, q: Request, h: Host, session: string)
    requires q.session != session
    ensures Failures(Serve(rows, q, h).0, session) == Failures(rows, session)
  {
    hide PreDecision, ResultDecision, ByKey;
    forall r: Row | r.session == q.session
      ensures Failures(rows + [r], session) == Failures(rows, session)
    {
      FailuresSnoc(rows, r, session);
    }
  }

  lemma RefusedIsRefusals(rows: seq<Row>, q: Request, h: Host)
    ensures Serve(rows, q, h).1.Replayed? <==> Prior(rows, q).Some?
  {
    hide PreDecision, ResultDecision, ByKey;
  }

  lemma ReplayChangesNothing(rows: seq<Row>, q: Request, h: Host)
    requires Prior(rows, q).Some?
    ensures Serve(rows, q, h) == (rows, Replayed(Prior(rows, q).value))
  {
  }

  // From three failed calls on, every guarded call of the session is refused or replayed, or
  // its assessment raises, so that no tool runs any more; and every refusal adds exactly one
  // failed row.
  lemma {:induction false} RatchetForGood(rows: seq<Row>, qs: seq<Request>, h: Host, session: string)
    requires Failures(rows, session) >= 3
    requires forall q :: q in qs && q.session == session ==> Guarded(q)
    ensures forall i :: 0 <= i < |qs| && qs[i].session == session ==>
              && !Completes(ServeAll(rows, qs, h).1[i])
              && (ServeAll(rows, qs, h).1[i] == DetectorError ==> FilterRaises(qs[i].call))
              && (ServeAll(rows, qs, h).1[i].Refused? || ServeAll(rows, qs, h).1[i].Replayed? || ServeAll(rows, qs, h).1[i] == DetectorError)
    ensures Failures(ServeAll(rows, qs, h).0, session) == Failures(rows, session) + Refusals(qs, ServeAll(rows, qs, h).1, session)
  {
    hide Serve, Guarded, Failures;
    if |qs| > 0 {
      var front, q := qs[..|qs| - 1], qs[|qs| - 1];
      RatchetForGood(rows, front, h, session);
      var (before, os) := ServeAll(rows, front, h);
      assert ServeAll(rows, qs, h).1[..|qs| - 1] == os;
      if q.session != session {
        OtherSession(before, q, h, session);
      } else if Prior(before, q).Some? {
        ReplayChangesNothing(before, q, h);
      } else {
        RatchetStep(before, q, h);
        RefusedIsRefusals(before, q, h);
      }
    }
  }

  // --- Idempotent write tools ------------------------------------------------------------------------

  predicate SameKey(a: Request, b: Request) {
    a.agent == b.agent && a.call.tool == b.call.tool && a.key == b.key
  }

  predicate Keyed(q: Request) {
    q.write && q.key.Some? && q.key.value != ""
  }

  // A keyed write call that completes leaves its row, and there is none before it.
  lemma CompletionStored(rows: seq<Row>, q: Request, h: Host)
    requires Keyed(q) && Completes(Serve(rows, q, h).1)
    ensures q.behaviour.Returns?
    ensures Serve(rows, q, h).0 == rows + [CompletedRow(q, q.behaviour.result)]
    ensures !Serve(rows, q, h).1.Duplicate?
  {
    hide PreDecision, ResultDecision;
  }

  lemma {:induction false} RowsGrow(rows: seq<Row>, qs: seq<Request>, h: Host)
    ensures rows <= ServeAll(rows, qs, h).0
  {
    hide PreDecision, ResultDecision, ByKey;
    if |qs| > 0 {
      RowsGrow(rows, qs[..|qs| - 1], h);
    }
  }

  // At most one row has a given key.
  ghost predicate KeysUnique(rows: seq<Row>) {
    forall i, j :: 0 <= i < j < |rows| && rows[i].key.Some? ==>
      !KeyedRow(rows[j], rows[i].agent, rows[i].tool, rows[i].key.value)
  }

  lemma NewRowDiffers(rows: seq<Row>, r: Row)
    requires KeysUnique(rows) && !Violates(rows, r)
    ensures KeysUnique(rows + [r])
  {
    var rows' := rows + [r];
    forall i, j | 0 <= i < j < |rows'| && rows'[i].key.Some?
      ensures !KeyedRow(rows'[j], rows'[i].agent, rows'[i].tool, rows'[i].key.value)
    {
      if j == |rows| && KeyedRow(r, rows[i].agent, rows[i].tool, rows[i].key.value) {
        assert rows[i] in rows && KeyedRow(rows[i], r.agent, r.tool, r.key.value);
      }
    }
  }

  lemma ServeKeepsKeys(rows: seq<Row>, q: Request, h: Host)
    requires KeysUnique(rows)
    ensures KeysUnique(Serve(rows, q, h).0)
  {
    hide PreDecision, ResultDecision;
    var rows' := Serve(rows, q, h).0;
    if rows' != rows {
      NewRowDiffers(rows, rows'[|rows|]);
    }
  }

  lemma {:induction false} ServeAllKeepsKeys(rows: seq<Row>, qs: seq<Request>, h: Host)
    requires KeysUnique(rows)
    ensures KeysUnique(ServeAll(rows, qs, h).0)
  {
    hide Serve, KeysUnique;
    if |qs| > 0 {
      ServeAllKeepsKeys(rows, qs[..|qs| - 1], h);
      ServeKeepsKeys(ServeAll(rows, qs[..|qs| - 1], h).0, qs[|qs| - 1], h);
    }
  }

  lemma ByKeyIs(rows: seq<Row>, r: Row)
    requires KeysUnique(rows) && r in rows && r.key.Some?
    ensures ByKey(rows, r.agent, r.tool, r.key.value) == Some(r)
  {
    var x := ByKey(rows, r.agent, r.tool, r.key.value).value;
    var i :| 0 <= i < |rows| && rows[i] == r;
    var j :| 0 <= j < |rows| && rows[j] == x;
  }

  // Once a keyed write call has completed, every later write call of its key, whatever
  // comes in between, is a replay of the row it stored.
  lemma LaterCallsReplay(rows: seq<Row>, q: Request, between: seq<Request>, q': Request, h: Host)
    requires KeysUnique(rows) && Keyed(q) && Completes(Serve(rows, q, h).1)
    requires Keyed(q') && SameKey(q, q')
    ensures q.behaviour.Returns?
    ensures var (later, _) := ServeAll(Serve(rows, q, h).0, between, h);
            Serve(later, q', h) == (later, Replayed(CompletedRow(q, q.behaviour.result)))
  {
    hide Serve, KeysUnique, ResultDecision;
    CompletionStored(rows, q, h);
    var rows1 := Serve(rows, q, h).0;
    ServeKeepsKeys(rows, q, h);
    ServeAllKeepsKeys(rows1, between, h);
    RowsGrow(rows1, between, h);
    var later := ServeAll(rows1, between, h).0;
    var row := CompletedRow(q, q.behaviour.result);
    assert rows1[|rows|] == row && later[|rows|] == row;
    assert row in later;
    ByKeyIs(later, row);
    ReplayChangesNothing(later, q', h);
  }

  lemma NoRowsUnique()
    ensures KeysUnique([])
  {
  }

  lemma ReplayCompletesNothing(row: Row)
    ensures !Completes(Replayed(row))
  {
  }

  lemma ServeAllOne(rows: seq<Row>, q: Request, h: Host)
    ensures ServeAll(rows, [q], h) == (Serve(rows, q, h).0, [Serve(rows, q, h).1])
  {
    hide Serve;
    var one, o := [q], Serve(rows, q, h).1;
    assert one[..|one| - 1] == [] && ServeAll(rows, one[..|one| - 1], h) == (rows, []);
    assert [] + [o] == [o];
  }

  lemma {:induction false} ServeAllConcat(rows: seq<Row>, a: seq<Request>, b: seq<Request>, h: Host)
    ensures ServeAll(rows, a + b, h).0 == ServeAll(ServeAll(rows, a, h).0, b, h).0
  {
    hide Serve;
    if |b| == 0 {
      assert a + b == a;
    } else {
      assert (a + b)[..|a + b| - 1] == a + b[..|b| - 1];
      ServeAllConcat(rows, a, b[..|b| - 1], h);
    }
  }

  lemma RowsUpTo(qs: seq<Request>, h: Host, i: nat, j: nat)
    requires i < j < |qs|
    ensures ServeAll([], qs[..j], h).0 == ServeAll(Serve(ServeAll([], qs[..i], h).0, qs[i], h).0, qs[i + 1..j], h).0
  {
    hide Serve, ServeAll;
    ServeAllConcat([], qs[..i] + [qs[i]], qs[i + 1..j], h);
    ServeAllConcat([], qs[..i], [qs[i]], h);
    assert qs[..i] + [qs[i]] + qs[i + 1..j] == qs[..j];
    ServeAllOne(ServeAll([], qs[..i], h).0, qs[i], h);
  }

  lemma {:induction false} OutcomeAt(rows: seq<Row>, qs: seq<Request>, h: Host, i: nat)
    requires i < |qs|
    ensures ServeAll(rows, qs, h).1[i] == Serve(ServeAll(rows, qs[..i], h).0, qs[i], h).1
  {
    hide Serve;
    var front := qs[..|qs| - 1];
    if i < |qs| - 1 {
      OutcomeAt(rows, front, h, i);
      assert front[..i] == qs[..i];
    }
  }

  // So a write tool completes at most once for a key that is not empty.
  lemma CompletesAtMostOnce(qs: seq<Request>, h: Host, i: nat, j: nat)
    requires i < j < |qs| && Keyed(qs[i]) && Keyed(qs[j]) && SameKey(qs[i], qs[j])
    requires Completes(ServeAll([], qs, h).1[i])
    ensures !Completes(ServeAll([], qs, h).1[j])
    ensures qs[i].behaviour.Returns?
    ensures ServeAll([], qs, h).1[j] == Replayed(CompletedRow(qs[i], qs[i].behaviour.result))
  {
    hide Serve, ServeAll, KeysUnique, Completes, CompletedRow, SameKey, Keyed;
    OutcomeAt([], qs, h, i);
    OutcomeAt([], qs, h, j);
    var rows := ServeAll([], qs[..i], h).0;
    NoRowsUnique();
    ServeAllKeepsKeys([], qs[..i], h);
    LaterCallsReplay(rows, qs[i], qs[i + 1..j], qs[j], h);
    RowsUpTo(qs, h, i, j);
    ReplayCompletesNothing(CompletedRow(qs[i], qs[i].behaviour.result));
  }

  // What the caller of a call sees: its decision, and the result if it gets one.
  function Seen(o: Outcome): (Decision, Value) {
    match o
    case Replayed(row) => (row.decision, row.result)
    case Refused(d) => (d, Null)
    case KeyError => (BLOCK, Null)
    case DetectorError => (BLOCK, Null)
    case RuntimeError => (REVIEW, Null)
    case Duplicate => (BLOCK, Null)
    case Blocked => (BLOCK, Null)
    case Allowed(result) => (ALLOW, result)
  }

  // A replay tells the caller what the completed call told exactly if the result check was
  // ALLOW, or a BLOCK of a result that is None: a REVIEW had been answered with ALLOW, and
  // a BLOCK hands the withheld result over on replay.
  lemma ReplayAgreesIff(rows: seq<Row>, q: Request, h: Host)
    requires Keyed(q) && Completes(Serve(rows, q, h).1)
    ensures q.behaviour.Returns?
    ensures var row := CompletedRow(q, q.behaviour.result);
            Seen(Replayed(row)) == Seen(Serve(rows, q, h).1) <==>
            row.decision == ALLOW || (row.decision == BLOCK && row.result == Null)
  {
    hide PreDecision, ResultDecision;
  }

  // With an empty key nothing is replayed: when a write tool has completed once, an
  // equal call that is let through runs the tool again and then fails on the index.
  lemma EmptyKeyRunsAgain(rows: seq<Row>, q: Request, h: Host)
    requires q.write && q.key == Some("") && q.behaviour.Returns?
    requires Serve(rows, q, h).1.Allowed? || Serve(rows, q, h).1.Blocked?
    requires PreDecision(Serve(rows, q, h).0, q, h) == Some(ALLOW)
    ensures var rows1 := Serve(rows, q, h).0;
            Serve(rows1, q, h) == (rows1, Duplicate)
  {
    hide PreDecision, ResultDecision;
    var row := CompletedRow(q, q.behaviour.result);
    assert Serve(rows, q, h).0 == rows + [row];
    assert row in rows + [row];
  }
}
