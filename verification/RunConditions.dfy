// What the conditions of a runtime hook ask of a run, key by key, and what the gate of a
// deployment decides by them (intelliguard/runtime/hooks.py:51-86, 362-383,
// intelliguard/workers/runtime.py:64-75).
module RunConditions {
  import opened Outcomes
  import opened RunTables
  import opened RunProtocol
  import Hooks = RuntimeHooks

  // --- Whole numbers --------------------------------------------------------

  ghost predicate AllDigits(s: string) {
    |s| > 0 && forall i :: 0 <= i < |s| ==> '0' <= s[i] <= '9'
  }

  // d with n zeros after it.
  ghost function Shifted(d: nat, n: nat): nat {
    if n == 0 then d else 10 * Shifted(d, n - 1)
  }

  // The number with these decimal digits, by their places.
  ghost function Decimal(s: string): nat
    requires forall i :: 0 <= i < |s| ==> '0' <= s[i] <= '9'
  {
    if s == "" then 0
    else Shifted(s[0] as int - '0' as int, |s| - 1) + Decimal(s[1..])
  }

  lemma {:induction false} DecimalSnoc(s: string, c: char)
    requires forall i :: 0 <= i < |s| ==> '0' <= s[i] <= '9'
    requires '0' <= c <= '9'
    ensures Decimal(s + [c]) == 10 * Decimal(s) + (c as int - '0' as int)
  {
    if s == "" {
      assert (s + [c])[1..] == "";
    } else {
      DecimalSnoc(s[1..], c);
      assert (s + [c])[1..] == s[1..] + [c];
    }
  }

  lemma {:induction false} DigitsAreDecimal(s: string)
    ensures Hooks.Digits(s) == if AllDigits(s) then Some(Decimal(s)) else None
  {
    if |s| > 0 && '0' <= s[|s| - 1] <= '9' {
      var front, c := s[..|s| - 1], s[|s| - 1];
      assert s == front + [c];
      if front == "" {
        DecimalSnoc(front, c);
      } else {
        DigitsAreDecimal(front);
        if AllDigits(front) {
          DecimalSnoc(front, c);
          assert AllDigits(s);
        } else {
          var i :| 0 <= i < |front| && !('0' <= front[i] <= '9');
          assert s[i] == front[i];
        }
      }
    }
  }

  // The value is this whole number, or written as it: digits after at most one sign.
  ghost predicate Denotes(v: Hooks.Value, n: int) {
    match v
    case Number(m) => n == m
    case Truth(b) => n == (if b then 1 else 0)
    case Text(s) =>
      || (AllDigits(s) && n == Decimal(s))
      || (|s| > 0 && s[0] == '+' && AllDigits(s[1..]) && n == Decimal(s[1..]))
      || (|s| > 0 && s[0] == '-' && AllDigits(s[1..]) && n == 0 - Decimal(s[1..]))
    case _ => false
  }

  ghost predicate Numeral(v: Hooks.Value) {
    exists n :: Denotes(v, n)
  }

  lemma IntOfMeans(v: Hooks.Value)
    ensures Hooks.IntOf(v).Some? <==> Numeral(v)
    ensures forall n :: Denotes(v, n) <==> Hooks.IntOf(v) == Some(n)
  {
    if v.Text? {
      DigitsAreDecimal(v.s);
      if |v.s| > 0 {
        DigitsAreDecimal(v.s[1..]);
        assert AllDigits(v.s) ==> v.s[0] != '-' && v.s[0] != '+';
      }
    }
    if Hooks.IntOf(v).Some? {
      assert Denotes(v, Hooks.IntOf(v).value);
    }
  }

  // --- Conditions -----------------------------------------------------------

  // A condition names one value or a list of those it accepts.
  ghost predicate Accepts(wanted: Hooks.Value, actual: Hooks.Value) {
    if wanted.Items? then actual in wanted.items else wanted == actual
  }

  function Texts(ids: seq<string>): (v: Hooks.Value)
    ensures v.Items? && |v.items| == |ids|
    ensures forall i :: 0 <= i < |ids| ==> v.items[i] == Hooks.Text(ids[i])
  {
    Hooks.Items(seq(|ids|, i requires 0 <= i < |ids| => Hooks.Text(ids[i])))
  }

  const KEYS := {"run_id", "deployment_id", "workflow_definition_id", "environment", "hook_point", "user_query",
                 "approved_hook_ids", "min_risk_score"}

  // The condition holds for the run: before the workflow there is no risk score, and
  // nothing else the context has a value for.
  ghost predicate Met(c: Config, r: nat, row: RunRow, approved: seq<string>, k: Hooks.Condition)
    requires row.deployment in c.deployments
  {
    && (k.key == "run_id" ==> Accepts(k.wanted, Hooks.RunRef(r)))
    && (k.key == "deployment_id" ==> Accepts(k.wanted, Hooks.Text(row.deployment)))
    && (k.key == "workflow_definition_id" ==> Accepts(k.wanted, Hooks.Text(c.deployments[row.deployment].definitionId)))
    && (k.key == "environment" ==> Accepts(k.wanted, Hooks.Text(c.deployments[row.deployment].environment)))
    && (k.key == "hook_point" ==> Accepts(k.wanted, Hooks.Text("before_workflow")))
    && (k.key == "user_query" ==> Accepts(k.wanted, Hooks.Text(row.query)))
    && (k.key == "approved_hook_ids" ==> Accepts(k.wanted, Texts(approved)))
    && (k.key == "min_risk_score" ==> exists n :: n <= 0 && Denotes(k.wanted, n))
    && (k.key !in KEYS ==> Accepts(k.wanted, Hooks.Null))
  }

  // Comparing with it raises an exception.
  ghost predicate Breaks(k: Hooks.Condition) {
    k.key == "min_risk_score" && !Numeral(k.wanted)
  }

  lemma ContextMeans(c: Config, r: nat, row: RunRow, approved: seq<string>, key: string)
    requires row.deployment in c.deployments && key != "min_risk_score"
    ensures var d, v := c.deployments[row.deployment], Hooks.ContextValue(ContextOf(c, r, row, approved), key);
            && (key == "run_id" ==> v == Hooks.RunRef(r))
            && (key == "deployment_id" ==> v == Hooks.Text(row.deployment))
            && (key == "workflow_definition_id" ==> v == Hooks.Text(d.definitionId))
            && (key == "environment" ==> v == Hooks.Text(d.environment))
            && (key == "hook_point" ==> v == Hooks.Text("before_workflow"))
            && (key == "user_query" ==> v == Hooks.Text(row.query))
            && (key == "approved_hook_ids" ==> v == Texts(approved))
            && (key !in KEYS ==> v == Hooks.Null)
  {
    var v := Hooks.ContextValue(ContextOf(c, r, row, approved), key);
    if key == "approved_hook_ids" {
      assert v.Items? && v.items == Texts(approved).items;
    }
  }

  lemma CheckMeans(c: Config, r: nat, row: RunRow, approved: seq<string>, k: Hooks.Condition)
    requires row.deployment in c.deployments
    ensures Hooks.Check(k, ContextOf(c, r, row, approved)) ==
            if Breaks(k) then Hooks.Raises else if Met(c, r, row, approved, k) then Hooks.Holds else Hooks.Fails
  {
    hide ContextOf, Hooks.ContextValue, Hooks.IntOf, Denotes, Numeral;
    if k.key == "min_risk_score" {
      IntOfMeans(k.wanted);
    } else {
      ContextMeans(c, r, row, approved, k.key);
    }
  }

  // The first n conditions are met.
  ghost predicate MetUpTo(c: Config, r: nat, row: RunRow, approved: seq<string>, ks: seq<Hooks.Condition>, n: nat)
    requires row.deployment in c.deployments && n <= |ks|
  {
    forall i :: 0 <= i < n ==> Met(c, r, row, approved, ks[i]) && !Breaks(ks[i])
  }

  // Condition n is not met, and those before it are.
  ghost predicate UnmetAt(c: Config, r: nat, row: RunRow, approved: seq<string>, ks: seq<Hooks.Condition>, n: nat)
    requires row.deployment in c.deployments && n < |ks|
  {
    MetUpTo(c, r, row, approved, ks, n) && !Met(c, r, row, approved, ks[n]) && !Breaks(ks[n])
  }

  // Condition n raises, and those before it are met.
  ghost predicate BreaksAt(c: Config, r: nat, row: RunRow, approved: seq<string>, ks: seq<Hooks.Condition>, n: nat)
    requires row.deployment in c.deployments && n < |ks|
  {
    MetUpTo(c, r, row, approved, ks, n) && Breaks(ks[n])
  }

  lemma {:induction false} CheckAllEnds(c: Config, r: nat, row: RunRow, approved: seq<string>, ks: seq<Hooks.Condition>)
    returns (n: nat)
    requires row.deployment in c.deployments
    ensures n <= |ks| && MetUpTo(c, r, row, approved, ks, n)
    ensures var v := Hooks.CheckAll(ks, ContextOf(c, r, row, approved));
            if n == |ks| then v == Hooks.Holds
            else if UnmetAt(c, r, row, approved, ks, n) then v == Hooks.Fails
            else BreaksAt(c, r, row, approved, ks, n) && v == Hooks.Raises
  {
    hide ContextOf, Hooks.Check, Met, Breaks;
    n := 0;
    if |ks| > 0 {
      CheckMeans(c, r, row, approved, ks[0]);
      if Met(c, r, row, approved, ks[0]) && !Breaks(ks[0]) {
        var m := CheckAllEnds(c, r, row, approved, ks[1..]);
        n := m + 1;
        forall i | 0 <= i < n
          ensures Met(c, r, row, approved, ks[i]) && !Breaks(ks[i])
        {
          assert i > 0 ==> ks[i] == ks[1..][i - 1];
        }
        assert n < |ks| ==> ks[n] == ks[1..][m];
      }
    }
  }

  // --- Hooks ------------------------------------------------------------------

  ghost predicate AllMet(c: Config, r: nat, row: RunRow, approved: seq<string>, ks: seq<Hooks.Condition>)
    requires row.deployment in c.deployments
  {
    MetUpTo(c, r, row, approved, ks, |ks|)
  }

  ghost predicate SomeUnmet(c: Config, r: nat, row: RunRow, approved: seq<string>, ks: seq<Hooks.Condition>)
    requires row.deployment in c.deployments
  {
    exists n :: 0 <= n < |ks| && UnmetAt(c, r, row, approved, ks, n)
  }

  lemma CheckAllMeans(c: Config, r: nat, row: RunRow, approved: seq<string>, ks: seq<Hooks.Condition>)
    requires row.deployment in c.deployments
    ensures var v := Hooks.CheckAll(ks, ContextOf(c, r, row, approved));
            && (v == Hooks.Holds <==> AllMet(c, r, row, approved, ks))
            && (v == Hooks.Fails <==> SomeUnmet(c, r, row, approved, ks))
  {
    hide ContextOf, Hooks.CheckAll, Met, Breaks;
    var n := CheckAllEnds(c, r, row, approved, ks);
  }

  // The gate asks about the hook: it is of the point before the workflow and not approved.
  ghost predicate Asked(approved: seq<string>, h: Hooks.Hook) {
    h.id !in approved && h.point == "before_workflow"
  }

  lemma StopsMeans(c: Config, r: nat, row: RunRow, approved: seq<string>, h: Hooks.Hook)
    requires row.deployment in c.deployments
    ensures var v := Hooks.Stops(h, ContextOf(c, r, row, approved));
            && (v == Hooks.Holds <==> Asked(approved, h) && AllMet(c, r, row, approved, h.conditions))
            && (v == Hooks.Fails <==> Asked(approved, h) ==> SomeUnmet(c, r, row, approved, h.conditions))
  {
    hide Hooks.CheckAll, AllMet, SomeUnmet;
    CheckAllMeans(c, r, row, approved, h.conditions);
  }

  // What the gate decides at hook k, once it has gone past the hooks before it.
  ghost predicate DecidesAt(c: Config, r: nat, row: RunRow, approved: seq<string>, k: nat, gate: Hooks.Gate)
    requires row.deployment in c.deployments && k < |c.deployments[row.deployment].hooks|
  {
    var h := c.deployments[row.deployment].hooks[k];
    && Asked(approved, h)
    && !SomeUnmet(c, r, row, approved, h.conditions)
    && gate == if !AllMet(c, r, row, approved, h.conditions) then Hooks.GateRaises
               else match h.action
                 case ContinueRun => Hooks.Open
                 case PauseForReview => Hooks.Pause(h)
                 case Escalate => Hooks.Pause(h)
                 case Block => Hooks.Stop(h)
  }

  ghost predicate PastAllBefore(c: Config, r: nat, row: RunRow, approved: seq<string>, k: nat)
    requires row.deployment in c.deployments && k <= |c.deployments[row.deployment].hooks|
  {
    forall i :: 0 <= i < k && Asked(approved, c.deployments[row.deployment].hooks[i])
      ==> SomeUnmet(c, r, row, approved, c.deployments[row.deployment].hooks[i].conditions)
  }

  // The gate is decided by the first hook of the point that is not approved and none of
  // whose conditions is unmet; it is open if there is no such hook.
  lemma GateMeans(c: Config, r: nat, row: RunRow, approved: seq<string>) returns (k: nat)
    requires row.deployment in c.deployments
    ensures k <= |c.deployments[row.deployment].hooks| && PastAllBefore(c, r, row, approved, k)
    ensures if k == |c.deployments[row.deployment].hooks| then GateOf(c, r, row, approved) == Hooks.Open
            else DecidesAt(c, r, row, approved, k, GateOf(c, r, row, approved))
  {
    hide Hooks.Stops, SomeUnmet, AllMet, ContextOf;
    var hooks, ctx := c.deployments[row.deployment].hooks, ContextOf(c, r, row, approved);
    k := Hooks.ScanEnds(hooks, ctx);
    forall i | 0 <= i < k && Asked(approved, hooks[i])
      ensures SomeUnmet(c, r, row, approved, hooks[i].conditions)
    {
      StopsMeans(c, r, row, approved, hooks[i]);
    }
    if k < |hooks| {
      StopsMeans(c, r, row, approved, hooks[k]);
    }
  }

  // Being met, key by key.
  lemma OneKey(c: Config, r: nat, row: RunRow, approved: seq<string>, k: Hooks.Condition)
    requires row.deployment in c.deployments
    ensures k.key == "run_id" ==> (Met(c, r, row, approved, k) <==> Accepts(k.wanted, Hooks.RunRef(r)))
    ensures k.key == "deployment_id" ==> (Met(c, r, row, approved, k) <==> Accepts(k.wanted, Hooks.Text(row.deployment)))
    ensures k.key == "workflow_definition_id" ==>
              (Met(c, r, row, approved, k) <==> Accepts(k.wanted, Hooks.Text(c.deployments[row.deployment].definitionId)))
    ensures k.key == "environment" ==>
              (Met(c, r, row, approved, k) <==> Accepts(k.wanted, Hooks.Text(c.deployments[row.deployment].environment)))
    ensures k.key == "hook_point" ==> (Met(c, r, row, approved, k) <==> Accepts(k.wanted, Hooks.Text("before_workflow")))
    ensures k.key == "user_query" ==> (Met(c, r, row, approved, k) <==> Accepts(k.wanted, Hooks.Text(row.query)))
    ensures k.key == "approved_hook_ids" ==> (Met(c, r, row, approved, k) <==> Accepts(k.wanted, Texts(approved)))
    ensures k.key == "min_risk_score" ==> (Met(c, r, row, approved, k) <==> exists n :: n <= 0 && Denotes(k.wanted, n))
    ensures k.key !in KEYS ==> (Met(c, r, row, approved, k) <==> Accepts(k.wanted, Hooks.Null))
    ensures Breaks(k) ==> !Met(c, r, row, approved, k)
  {
    hide Accepts, Denotes;
  }

  lemma SingleMeans(c: Config, r: nat, row: RunRow, approved: seq<string>, k: Hooks.Condition)
    requires row.deployment in c.deployments
    ensures AllMet(c, r, row, approved, [k]) <==> Met(c, r, row, approved, k) && !Breaks(k)
    ensures SomeUnmet(c, r, row, approved, [k]) <==> !Met(c, r, row, approved, k) && !Breaks(k)
  {
    hide Met, Breaks;
    assert [k][0] == k;
    if !Met(c, r, row, approved, k) && !Breaks(k) {
      assert UnmetAt(c, r, row, approved, [k], 0);
    }
  }

  // A deployment whose only hook has one condition stops a run iff the run has what the
  // condition wants under its key.
  lemma OneCondition(c: Config, r: nat, row: RunRow, approved: seq<string>, h: Hooks.Hook, k: Hooks.Condition)
    requires row.deployment in c.deployments && c.deployments[row.deployment].hooks == [h] && h.conditions == [k]
    requires h.id !in approved && h.point == "before_workflow" && h.action != Hooks.ContinueRun
    ensures var d, gate := c.deployments[row.deployment], GateOf(c, r, row, approved);
            var stops := gate == (if h.action == Hooks.Block then Hooks.Stop(h) else Hooks.Pause(h));
            && (k.key == "run_id" ==> (stops <==> Accepts(k.wanted, Hooks.RunRef(r))))
            && (k.key == "deployment_id" ==> (stops <==> Accepts(k.wanted, Hooks.Text(row.deployment))))
            && (k.key == "workflow_definition_id" ==> (stops <==> Accepts(k.wanted, Hooks.Text(d.definitionId))))
            && (k.key == "environment" ==> (stops <==> Accepts(k.wanted, Hooks.Text(d.environment))))
            && (k.key == "hook_point" ==> (stops <==> Accepts(k.wanted, Hooks.Text("before_workflow"))))
            && (k.key == "user_query" ==> (stops <==> Accepts(k.wanted, Hooks.Text(row.query))))
            && (k.key == "approved_hook_ids" ==> (stops <==> Accepts(k.wanted, Texts(approved))))
            && (k.key == "min_risk_score" ==> (stops <==> exists n :: n <= 0 && Denotes(k.wanted, n)))
            && (k.key !in KEYS ==> (stops <==> Accepts(k.wanted, Hooks.Null)))
            && (gate == Hooks.GateRaises <==> k.key == "min_risk_score" && !Numeral(k.wanted))
            && (gate == Hooks.Open <==> !stops && gate != Hooks.GateRaises)
  {
    hide GateOf, Accepts, Denotes, Numeral, Met, AllMet, SomeUnmet;
    var n := GateMeans(c, r, row, approved);
    SingleMeans(c, r, row, approved, k);
    OneKey(c, r, row, approved, k);
    var gate := GateOf(c, r, row, approved);
    var stops := gate == (if h.action == Hooks.Block then Hooks.Stop(h) else Hooks.Pause(h));
    assert c.deployments[row.deployment].hooks[0] == h && Asked(approved, h);
    assert n == 0 ==> (stops <==> Met(c, r, row, approved, k));
    assert n == 1 ==> SomeUnmet(c, r, row, approved, h.conditions);
    assert stops <==> Met(c, r, row, approved, k);
  }
}
