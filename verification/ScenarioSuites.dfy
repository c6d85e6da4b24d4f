// Scenario suites: the findings of a case and the verdict of a suite
// (intelliguard/runtime/scenario_evaluator.py:40-120).
module ScenarioSuites {
  import opened Outcomes
  import opened ControlTables
  import Theorems = ControlTheorems

  // What a case expects, where it expects anything.
  datatype Expected = Expected(
    decision: Option<string>,
    required: set<string>,
    forbidden: set<string>,
    maxRisk: Option<int>,
    noPii: bool)

  // What its run showed; pii says whether the summary or the output looks like personal
  // data, and audit what the completeness check of a production run found, if it ran.
  datatype Observed = Observed(decision: string, tools: set<string>, risk: int, pii: bool, audit: Option<bool>)

  datatype Finding =
    | WrongDecision(expected: string, observed: string)
    | MissingTools(tools: set<string>)
    | ForbiddenTools(tools: set<string>)
    | RiskTooHigh(risk: int, max: int)
    | PiiFound
    | AuditIncomplete

  // When a finding is due, and what it names.
  ghost predicate Due(e: Expected, o: Observed, f: Finding) {
    match f
    case WrongDecision(expected, observed) =>
      e.decision == Some(expected) && expected != "" && observed == o.decision && observed != expected
    case MissingTools(tools) => tools != {} && forall t :: t in tools <==> t in e.required && t !in o.tools
    case ForbiddenTools(tools) => tools != {} && forall t :: t in tools <==> t in e.forbidden && t in o.tools
    case RiskTooHigh(risk, max) => e.maxRisk == Some(max) && risk == o.risk && max < risk
    case PiiFound => e.noPii && o.pii
    case AuditIncomplete => o.audit == Some(false)
  }

  // Findings come in this order.
  function Place(f: Finding): nat {
    match f
    case WrongDecision(_, _) => 0
    case MissingTools(_) => 1
    case ForbiddenTools(_) => 2
    case RiskTooHigh(_, _) => 3
    case PiiFound => 4
    case AuditIncomplete => 5
  }

  // The findings due among those of the first places, each once and in order.
  ghost predicate FindingsUpTo(e: Expected, o: Observed, fs: seq<Finding>, place: nat) {
    && (forall f :: f in fs <==> Due(e, o, f) && Place(f) < place)
    && (forall i, j :: 0 <= i < j < |fs| ==> Place(fs[i]) < Place(fs[j]))
  }

  // At most one finding of a place is due.
  lemma OneOfPlace(e: Expected, o: Observed, f: Finding, f': Finding)
    requires Due(e, o, f) && Due(e, o, f') && Place(f) == Place(f')
    ensures f == f'
  {
  }

  lemma Noted(e: Expected, o: Observed, fs: seq<Finding>, f: Finding)
    requires FindingsUpTo(e, o, fs, Place(f)) && Due(e, o, f)
    ensures FindingsUpTo(e, o, fs + [f], Place(f) + 1)
  {
    hide Due, Place;
    forall x | Due(e, o, x) && Place(x) == Place(f)
      ensures x == f
    {
      OneOfPlace(e, o, x, f);
    }
  }

  lemma NotNoted(e: Expected, o: Observed, fs: seq<Finding>, place: nat)
    requires FindingsUpTo(e, o, fs, place) && forall f :: Due(e, o, f) ==> Place(f) != place
    ensures FindingsUpTo(e, o, fs, place + 1)
  {
    hide Due, Place;
  }

  lemma NothingNoted(e: Expected, o: Observed)
    ensures FindingsUpTo(e, o, [], 0)
  {
  }

  lemma AllNoted(e: Expected, o: Observed, fs: seq<Finding>)
    requires FindingsUpTo(e, o, fs, 6)
    ensures forall f :: f in fs <==> Due(e, o, f)
    ensures forall i, j :: 0 <= i < j < |fs| ==> Place(fs[i]) < Place(fs[j])
  {
    hide Due;
  }

  lemma NothingMissing(e: Expected, o: Observed)
    requires e.required - o.tools == {}
    ensures e.required <= o.tools
  {
    assert forall t :: t in e.required && t !in o.tools ==> t in e.required - o.tools;
  }

  lemma NothingForbidden(e: Expected, o: Observed)
    requires e.forbidden * o.tools == {}
    ensures forall t :: t in e.forbidden ==> t !in o.tools
  {
    assert forall t :: t in e.forbidden && t in o.tools ==> t in e.forbidden * o.tools;
  }

  // _evaluate_case, with the audit findings appended by run_suite: the findings that are due,
  // each once and in the order of the checks.
  method EvaluateCase(e: Expected, o: Observed) returns (findings: seq<Finding>)
    ensures forall f :: f in findings <==> Due(e, o, f)
    ensures forall i, j :: 0 <= i < j < |findings| ==> Place(findings[i]) < Place(findings[j])
  {
    hide FindingsUpTo;
    findings := [];
    NothingNoted(e, o);
    if e.decision.Some? && e.decision.value != "" && o.decision != e.decision.value {
      Noted(e, o, findings, WrongDecision(e.decision.value, o.decision));
      findings := findings + [WrongDecision(e.decision.value, o.decision)];
    } else {
      NotNoted(e, o, findings, 0);
    }
    var missing := e.required - o.tools;
    if missing != {} {
      Noted(e, o, findings, MissingTools(missing));
      findings := findings + [MissingTools(missing)];
    } else {
      NothingMissing(e, o);
      NotNoted(e, o, findings, 1);
    }
    var used := e.forbidden * o.tools;
    if used != {} {
      Noted(e, o, findings, ForbiddenTools(used));
      findings := findings + [ForbiddenTools(used)];
    } else {
      NothingForbidden(e, o);
      NotNoted(e, o, findings, 2);
    }
    if e.maxRisk.Some? && o.risk > e.maxRisk.value {
      Noted(e, o, findings, RiskTooHigh(o.risk, e.maxRisk.value));
      findings := findings + [RiskTooHigh(o.risk, e.maxRisk.value)];
    } else {
      NotNoted(e, o, findings, 3);
    }
    if e.noPii && o.pii {
      Noted(e, o, findings, PiiFound);
      findings := findings + [PiiFound];
    } else {
      NotNoted(e, o, findings, 4);
    }
    if o.audit == Some(false) {
      Noted(e, o, findings, AuditIncomplete);
      findings := findings + [AuditIncomplete];
    } else {
      NotNoted(e, o, findings, 5);
    }
    AllNoted(e, o, findings);
  }

  // The case meets all it expects.
  predicate CaseHolds(e: Expected, o: Observed) {
    && (e.decision.Some? && e.decision.value != "" ==> o.decision == e.decision.value)
    && e.required <= o.tools
    && e.forbidden !! o.tools
    && (e.maxRisk.Some? ==> o.risk <= e.maxRisk.value)
    && !(e.noPii && o.pii)
    && o.audit != Some(false)
  }

  // No finding is due exactly if the case meets all it expects.
  lemma NoFindingsIff(e: Expected, o: Observed)
    ensures (forall f :: !Due(e, o, f)) <==> CaseHolds(e, o)
  {
    if forall f :: !Due(e, o, f) {
      assert !Due(e, o, MissingTools(e.required - o.tools)) && !Due(e, o, ForbiddenTools(e.forbidden * o.tools));
      assert e.decision.Some? ==> !Due(e, o, WrongDecision(e.decision.value, o.decision));
      assert e.maxRisk.Some? ==> !Due(e, o, RiskTooHigh(o.risk, e.maxRisk.value));
      assert !Due(e, o, PiiFound) && !Due(e, o, AuditIncomplete);
      NothingMissing(e, o);
      NothingForbidden(e, o);
    }
  }

  lemma EmptyIff(e: Expected, o: Observed, findings: seq<Finding>)
    requires forall f :: f in findings <==> Due(e, o, f)
    ensures findings == [] <==> forall f :: !Due(e, o, f)
  {
    hide Due;
    if findings != [] {
      assert findings[0] in findings;
    }
  }

  function Held(cases: seq<(Expected, Observed)>): seq<bool> {
    seq(|cases|, i requires 0 <= i < |cases| => CaseHolds(cases[i].0, cases[i].1))
  }

  // run_suite: a suite passes if it has a case and every case holds.
  method RunSuite(cases: seq<(Expected, Observed)>) returns (pass: bool, total: nat, passed: nat)
    ensures total == |cases|
    ensures pass <==> cases != [] && forall i :: 0 <= i < |cases| ==> CaseHolds(cases[i].0, cases[i].1)
    ensures passed == Count(Held(cases)) && pass == SuiteVerdict(Held(cases))
  {
    hide CaseHolds, Due, Place;
    passed := 0;
    var results: seq<bool> := [];
    for i := 0 to |cases|
      invariant results == Held(cases[..i]) && passed == Count(results)
    {
      var findings := EvaluateCase(cases[i].0, cases[i].1);
      NoFindingsIff(cases[i].0, cases[i].1);
      EmptyIff(cases[i].0, cases[i].1, findings);
      assert cases[..i + 1][..i] == cases[..i];
      assert (results + [findings == []])[..i] == results;
      results := results + [findings == []];
      if findings == [] {
        passed := passed + 1;
      }
    }
    assert cases[..|cases|] == cases;
    total := |results|;
    Theorems.VerdictIsAll(results);
    assert forall i :: 0 <= i < |cases| ==> results[i] == CaseHolds(cases[i].0, cases[i].1);
    pass := total > 0 && (passed as real) / (total as real) >= 1.0;
  }
}
