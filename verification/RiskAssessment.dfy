// Risk findings of tool calls and results, and the decision on their highest score
// (intelliguard/governance/detectors.py:40-285, governance/policy.py:12-110).
module RiskAssessment {
  import opened Outcomes
  import opened Json

  datatype Decision = ALLOW | REVIEW | BLOCK

  datatype ArgumentRule = ArgumentRule(required: seq<string>, mustMatchCustomer: bool, requireFilter: bool, maxLimit: Option<int>)

  datatype Control = Control(requiresReview: bool, reviewScore: int)

  datatype Policy = Policy(
    allowedTools: seq<string>,
    blockedTools: seq<string>,
    maxRecords: int,
    blockedPatterns: seq<string>,
    review: int,
    block: int,
    rules: map<string, ArgumentRule>,
    controls: map<string, Control>)

  // Functions of the host language that the detectors call: case folding, the customer ids
  // and the patterns that occur in a text, and int() of a value.
  datatype Host = Host(
    upper: string -> string,
    customerIds: string -> set<string>,
    matches: (string, string) -> bool,
    asInt: Value -> Option<int>)

  datatype Call = Call(tool: string, query: string, args: map<string, Value>, granted: set<string>)

  datatype Risk =
    | PermissionDenied | MissingArguments | ScopeViolation | MissingFilter | ArgumentLimit | SideEffectReview
    | PromptInjection | BlockedTool | ToolNotAllowed | BulkSearch | EmailExposure | RepeatedFailures | ExcessiveRecords

  datatype Finding = Finding(risk: Risk, score: int)

  function Arg(c: Call, name: string): Value {
    if name in c.args then c.args[name] else Null
  }

  // None, "", {} or []
  predicate Blank(v: Value) {
    v.Null? || v == String("") || (v.Object? && v.fields == map[]) || (v.List? && v.items == [])
  }

  // _argument_limit
  function LimitOf(h: Host, c: Call): Option<int> {
    var filter := Arg(c, "filter");
    var raw := if Arg(c, "limit").Null? && filter.Object? then Get(filter.fields, Other("limit")) else Arg(c, "limit");
    if raw.Null? then None else h.asInt(raw)
  }

  // --- When each finding is made --------------------------------------------------

  predicate Denied(c: Call) {
    c.granted != {} && c.tool !in c.granted
  }

  predicate LacksArguments(p: Policy, c: Call) {
    c.tool in p.rules && exists i | 0 <= i < |p.rules[c.tool].required| :: Blank(Arg(c, p.rules[c.tool].required[i]))
  }

  predicate LeavesScope(p: Policy, h: Host, c: Call) {
    && c.tool in p.rules && p.rules[c.tool].mustMatchCustomer
    && h.customerIds(c.query) != {}
    && var requested := h.upper(Shown(Or(Arg(c, "customer_id"), String(""))));
       requested != "" && requested !in h.customerIds(c.query)
  }

  predicate LacksFilter(p: Policy, c: Call) {
    && c.tool in p.rules && p.rules[c.tool].requireFilter
    && (!Arg(c, "filter").Object? || Arg(c, "filter").fields == map[])
  }

  predicate OverLimit(p: Policy, h: Host, c: Call) {
    && c.tool in p.rules && p.rules[c.tool].maxLimit.Some?
    && LimitOf(h, c).Some? && LimitOf(h, c).value > p.rules[c.tool].maxLimit.value
  }

  predicate NeedsReview(p: Policy, c: Call) {
    c.tool in p.controls && p.controls[c.tool].requiresReview
  }

  predicate Bulk(h: Host, c: Call) {
    !Truthy(Arg(c, "filter")) || h.matches(c.query, "all records") || h.matches(c.query, "dump")
  }

  predicate WantsEmail(h: Host, c: Call) {
    Truthy(Get(DictOrEmpty(Arg(c, "filter")), Other("include_email"))) || h.matches(c.query, "email")
  }

  const SEARCH := "search_customers"

  // Asking a filter that is no dict for its entries raises.
  predicate FilterRaises(c: Call) {
    c.tool == SEARCH && Truthy(Arg(c, "filter")) && !Arg(c, "filter").Object?
  }

  // --- The list of findings ------------------------------------------------------------

  function Noting(findings: seq<Finding>, wrong: bool, risk: Risk, score: int): seq<Finding> {
    if wrong then findings + [Finding(risk, score)] else findings
  }

  function RuleFindings(p: Policy, h: Host, c: Call): seq<Finding> {
    var f1 := Noting([], Denied(c), PermissionDenied, 92);
    var f2 := Noting(f1, LacksArguments(p, c), MissingArguments, 86);
    var f3 := Noting(f2, LeavesScope(p, h, c), ScopeViolation, 90);
    var f4 := Noting(f3, LacksFilter(p, c), MissingFilter, 82);
    var f5 := Noting(f4, OverLimit(p, h, c), ArgumentLimit, 86);
    Noting(f5, NeedsReview(p, c), SideEffectReview, if NeedsReview(p, c) then p.controls[c.tool].reviewScore else 0)
  }

  function PatternFindings(h: Host, query: string, patterns: seq<string>): seq<Finding> {
    if |patterns| == 0 then []
    else Noting(PatternFindings(h, query, patterns[..|patterns| - 1]), h.matches(query, patterns[|patterns| - 1]), PromptInjection, 85)
  }

  function ToolFindings(p: Policy, h: Host, c: Call, failures: nat): seq<Finding> {
    var f1 := Noting([], c.tool in p.blockedTools, BlockedTool, 90);
    var f2 := Noting(f1, p.allowedTools != [] && c.tool !in p.allowedTools, ToolNotAllowed, 85);
    var f3 := Noting(f2, c.tool == SEARCH && Bulk(h, c), BulkSearch, 82);
    var f4 := Noting(f3, c.tool == SEARCH && !Bulk(h, c) && WantsEmail(h, c), EmailExposure, 62);
    Noting(f4, failures >= 3, RepeatedFailures, 55)
  }

  function CallFindings(p: Policy, h: Host, c: Call, failures: nat): seq<Finding> {
    RuleFindings(p, h, c) + PatternFindings(h, c.query, p.blockedPatterns) + ToolFindings(p, h, c, failures)
  }

  // max(scores, default=0)
  function MaxScore(fs: seq<Finding>): int {
    if |fs| == 0 then 0
    else if |fs| == 1 then fs[0].score
    else
      var m := MaxScore(fs[..|fs| - 1]);
      if fs[|fs| - 1].score > m then fs[|fs| - 1].score else m
  }

  function DecideFromScore(p: Policy, score: int): Decision {
    if score >= p.block then BLOCK else if score >= p.review then REVIEW else ALLOW
  }

  datatype Assessment = Assessment(decision: Decision, score: int, findings: seq<Finding>)

  function Assess(p: Policy, findings: seq<Finding>): Assessment {
    Assessment(DecideFromScore(p, MaxScore(findings)), MaxScore(findings), findings)
  }

  method HighestScore(fs: seq<Finding>) returns (m: int)
    ensures m == MaxScore(fs)
  {
    m := 0;
    for i := 0 to |fs|
      invariant m == MaxScore(fs[..i])
    {
      assert fs[..i + 1][..i] == fs[..i];
      if i == 0 || fs[i].score > m {
        m := fs[i].score;
      }
    }
    assert fs[..|fs|] == fs;
  }

  // The score is that of a finding, and no finding has a higher one; without findings it is 0.
  lemma {:induction false} MaxScoreIsMax(fs: seq<Finding>)
    ensures forall i :: 0 <= i < |fs| ==> fs[i].score <= MaxScore(fs)
    ensures if fs == [] then MaxScore(fs) == 0 else exists i :: 0 <= i < |fs| && fs[i].score == MaxScore(fs)
  {
    if |fs| == 1 {
      assert fs[0].score == MaxScore(fs);
    } else if |fs| > 1 {
      var front := fs[..|fs| - 1];
      MaxScoreIsMax(front);
      var k :| 0 <= k < |front| && front[k].score == MaxScore(front);
      assert fs[k].score == MaxScore(front) && fs[|fs| - 1].score <= MaxScore(fs);
    }
  }

  // --- What the findings mean ---------------------------------------------------------------

  ghost predicate Given(c: Call, name: string) {
    name in c.args && c.args[name] != Null
  }

  // The limit a call asks for: its own, or else that of its filter.
  ghost predicate Limits(h: Host, c: Call, n: int) {
    if Given(c, "limit") then h.asInt(c.args["limit"]) == Some(n)
    else
      && Given(c, "filter") && c.args["filter"].Object?
      && Other("limit") in c.args["filter"].fields && c.args["filter"].fields[Other("limit")] != Null
      && h.asInt(c.args["filter"].fields[Other("limit")]) == Some(n)
  }

  ghost predicate Missing(c: Call, name: string) {
    !Given(c, name) || c.args[name] == String("")
    || (c.args[name].Object? && c.args[name].fields == map[]) || (c.args[name].List? && c.args[name].items == [])
  }

  // The text of the customer a call asks about.
  ghost function Customer(c: Call): string {
    if "customer_id" in c.args && Truthy(c.args["customer_id"]) then Shown(c.args["customer_id"]) else ""
  }

  ghost predicate BroadSearch(h: Host, c: Call) {
    !("filter" in c.args && Truthy(c.args["filter"])) || h.matches(c.query, "all records") || h.matches(c.query, "dump")
  }

  ghost predicate EmailSearch(h: Host, c: Call) {
    h.matches(c.query, "email")
    || ("filter" in c.args && c.args["filter"].Object? && Other("include_email") in c.args["filter"].fields
        && Truthy(c.args["filter"].fields[Other("include_email")]))
  }

  // When each risk is found, and with what score.
  ghost predicate Due(p: Policy, h: Host, c: Call, failures: nat, f: Finding) {
    match f.risk
    case PermissionDenied => f.score == 92 && c.granted != {} && c.tool !in c.granted
    case MissingArguments => f.score == 86 && c.tool in p.rules && exists a :: a in p.rules[c.tool].required && Missing(c, a)
    case ScopeViolation =>
      && f.score == 90 && c.tool in p.rules && p.rules[c.tool].mustMatchCustomer && h.customerIds(c.query) != {}
      && h.upper(Customer(c)) != "" && h.upper(Customer(c)) !in h.customerIds(c.query)
    case MissingFilter =>
      && f.score == 82 && c.tool in p.rules && p.rules[c.tool].requireFilter
      && !("filter" in c.args && c.args["filter"].Object? && c.args["filter"].fields != map[])
    case ArgumentLimit =>
      && f.score == 86 && c.tool in p.rules && p.rules[c.tool].maxLimit.Some?
      && exists n :: Limits(h, c, n) && n > p.rules[c.tool].maxLimit.value
    case SideEffectReview =>
      c.tool in p.controls && p.controls[c.tool].requiresReview && f.score == p.controls[c.tool].reviewScore
    case PromptInjection => f.score == 85 && exists t :: t in p.blockedPatterns && h.matches(c.query, t)
    case BlockedTool => f.score == 90 && c.tool in p.blockedTools
    case ToolNotAllowed => f.score == 85 && p.allowedTools != [] && c.tool !in p.allowedTools
    case BulkSearch => f.score == 82 && c.tool == "search_customers" && BroadSearch(h, c)
    case EmailExposure => f.score == 62 && c.tool == "search_customers" && !BroadSearch(h, c) && EmailSearch(h, c)
    case RepeatedFailures => f.score == 55 && failures >= 3
    case ExcessiveRecords => false
  }

  // The score is the highest of the findings, or 0.
  ghost predicate Scored(fs: seq<Finding>, score: int) {
    && (forall f :: f in fs ==> f.score <= score)
    && (if fs == [] then score == 0 else exists f :: f in fs && f.score == score)
  }

  ghost predicate Decided(p: Policy, score: int, d: Decision) {
    && (d == BLOCK <==> score >= p.block)
    && (d == REVIEW <==> score >= p.review && score < p.block)
  }

  lemma NotedIff(fs: seq<Finding>, wrong: bool, risk: Risk, score: int, f: Finding)
    ensures f in Noting(fs, wrong, risk, score) <==> f in fs || (wrong && f == Finding(risk, score))
  {
  }

  lemma RulesBroken(p: Policy, h: Host, c: Call, f: Finding)
    ensures f in RuleFindings(p, h, c) <==>
            match f.risk
            case PermissionDenied => f.score == 92 && Denied(c)
            case MissingArguments => f.score == 86 && LacksArguments(p, c)
            case ScopeViolation => f.score == 90 && LeavesScope(p, h, c)
            case MissingFilter => f.score == 82 && LacksFilter(p, c)
            case ArgumentLimit => f.score == 86 && OverLimit(p, h, c)
            case SideEffectReview => NeedsReview(p, c) && f.score == p.controls[c.tool].reviewScore
            case _ => false
  {
    hide Denied, LacksArguments, LeavesScope, LacksFilter, OverLimit, Noting;
    var f1 := Noting([], Denied(c), PermissionDenied, 92);
    var f2 := Noting(f1, LacksArguments(p, c), MissingArguments, 86);
    var f3 := Noting(f2, LeavesScope(p, h, c), ScopeViolation, 90);
    var f4 := Noting(f3, LacksFilter(p, c), MissingFilter, 82);
    var f5 := Noting(f4, OverLimit(p, h, c), ArgumentLimit, 86);
    NotedIff([], Denied(c), PermissionDenied, 92, f);
    NotedIff(f1, LacksArguments(p, c), MissingArguments, 86, f);
    NotedIff(f2, LeavesScope(p, h, c), ScopeViolation, 90, f);
    NotedIff(f3, LacksFilter(p, c), MissingFilter, 82, f);
    NotedIff(f4, OverLimit(p, h, c), ArgumentLimit, 86, f);
    NotedIff(f5, NeedsReview(p, c), SideEffectReview, if NeedsReview(p, c) then p.controls[c.tool].reviewScore else 0, f);
  }

  lemma {:induction false} PatternsFound(h: Host, query: string, patterns: seq<string>, f: Finding)
    ensures f in PatternFindings(h, query, patterns) <==>
            f == Finding(PromptInjection, 85) && exists t :: t in patterns && h.matches(query, t)
  {
    if |patterns| > 0 {
      var front, t := patterns[..|patterns| - 1], patterns[|patterns| - 1];
      PatternsFound(h, query, front, f);
      assert patterns == front + [t];
    }
  }

  lemma ToolsFound(p: Policy, h: Host, c: Call, failures: nat, f: Finding)
    ensures f in ToolFindings(p, h, c, failures) <==>
            match f.risk
            case BlockedTool => f.score == 90 && c.tool in p.blockedTools
            case ToolNotAllowed => f.score == 85 && p.allowedTools != [] && c.tool !in p.allowedTools
            case BulkSearch => f.score == 82 && c.tool == "search_customers" && Bulk(h, c)
            case EmailExposure => f.score == 62 && c.tool == "search_customers" && !Bulk(h, c) && WantsEmail(h, c)
            case RepeatedFailures => f.score == 55 && failures >= 3
            case _ => false
  {
    hide Bulk, WantsEmail, Noting;
    var f1 := Noting([], c.tool in p.blockedTools, BlockedTool, 90);
    var f2 := Noting(f1, p.allowedTools != [] && c.tool !in p.allowedTools, ToolNotAllowed, 85);
    var f3 := Noting(f2, c.tool == SEARCH && Bulk(h, c), BulkSearch, 82);
    var f4 := Noting(f3, c.tool == SEARCH && !Bulk(h, c) && WantsEmail(h, c), EmailExposure, 62);
    NotedIff([], c.tool in p.blockedTools, BlockedTool, 90, f);
    NotedIff(f1, p.allowedTools != [] && c.tool !in p.allowedTools, ToolNotAllowed, 85, f);
    NotedIff(f2, c.tool == SEARCH && Bulk(h, c), BulkSearch, 82, f);
    NotedIff(f3, c.tool == SEARCH && !Bulk(h, c) && WantsEmail(h, c), EmailExposure, 62, f);
    NotedIff(f4, failures >= 3, RepeatedFailures, 55, f);
  }

  lemma ArgumentsMean(p: Policy, c: Call)
    ensures LacksArguments(p, c) <==> c.tool in p.rules && exists a :: a in p.rules[c.tool].required && Missing(c, a)
    ensures LacksFilter(p, c) <==>
            && c.tool in p.rules && p.rules[c.tool].requireFilter
            && !("filter" in c.args && c.args["filter"].Object? && c.args["filter"].fields != map[])
  {
    forall a: string
      ensures Blank(Arg(c, a)) <==> Missing(c, a)
    {
    }
    if c.tool in p.rules && exists a :: a in p.rules[c.tool].required && Missing(c, a) {
      var a :| a in p.rules[c.tool].required && Missing(c, a);
      var i :| 0 <= i < |p.rules[c.tool].required| && p.rules[c.tool].required[i] == a;
      assert Blank(Arg(c, p.rules[c.tool].required[i]));
    }
  }

  lemma LimitMeans(p: Policy, h: Host, c: Call)
    ensures OverLimit(p, h, c) <==>
            && c.tool in p.rules && p.rules[c.tool].maxLimit.Some?
            && exists n :: Limits(h, c, n) && n > p.rules[c.tool].maxLimit.value
  {
    assert forall n :: Limits(h, c, n) <==> LimitOf(h, c) == Some(n);
  }

  lemma SearchMeans(h: Host, c: Call)
    ensures Bulk(h, c) <==> BroadSearch(h, c)
    ensures WantsEmail(h, c) <==> EmailSearch(h, c)
  {
  }

  lemma ScopeMeans(p: Policy, h: Host, c: Call)
    ensures LeavesScope(p, h, c) <==>
            && c.tool in p.rules && p.rules[c.tool].mustMatchCustomer && h.customerIds(c.query) != {}
            && h.upper(Customer(c)) != "" && h.upper(Customer(c)) !in h.customerIds(c.query)
  {
  }

  // A finding is listed exactly if it is due.
  lemma FoundIffDue(p: Policy, h: Host, c: Call, failures: nat)
    ensures forall f :: f in CallFindings(p, h, c, failures) <==> Due(p, h, c, failures, f)
  {
    hide RuleFindings, PatternFindings, ToolFindings, LacksArguments, LeavesScope, LacksFilter, OverLimit, Bulk, WantsEmail,
         Missing, Limits, BroadSearch, EmailSearch;
    ArgumentsMean(p, c);
    LimitMeans(p, h, c);
    SearchMeans(h, c);
    ScopeMeans(p, h, c);
    forall f: Finding
      ensures f in CallFindings(p, h, c, failures) <==> Due(p, h, c, failures, f)
    {
      RulesBroken(p, h, c, f);
      PatternsFound(h, c.query, p.blockedPatterns, f);
      ToolsFound(p, h, c, failures, f);
    }
  }

  // None is an exception.
  method AssessToolCall(p: Policy, h: Host, c: Call, failures: nat) returns (a: Option<Assessment>)
    ensures a == if FilterRaises(c) then None else Some(Assess(p, CallFindings(p, h, c, failures)))
    ensures a.None? <==>
              c.tool == "search_customers" && "filter" in c.args && Truthy(c.args["filter"]) && !c.args["filter"].Object?
    ensures a.Some? ==> forall f :: f in a.value.findings <==> Due(p, h, c, failures, f)
    ensures a.Some? ==> Scored(a.value.findings, a.value.score) && Decided(p, a.value.score, a.value.decision)
  {
    hide Denied, LacksArguments, LeavesScope, LacksFilter, OverLimit, NeedsReview, Bulk, WantsEmail, MaxScore, Due;
    if c.tool == SEARCH && Truthy(Arg(c, "filter")) && !Arg(c, "filter").Object? {
      return None;
    }
    var findings := RuleFindings(p, h, c);
    ghost var rules := findings;
    for i := 0 to |p.blockedPatterns|
      invariant findings == rules + PatternFindings(h, c.query, p.blockedPatterns[..i])
    {
      assert p.blockedPatterns[..i + 1][..i] == p.blockedPatterns[..i];
      if h.matches(c.query, p.blockedPatterns[i]) {
        findings := findings + [Finding(PromptInjection, 85)];
      }
    }
    assert p.blockedPatterns[..|p.blockedPatterns|] == p.blockedPatterns;
    findings := findings + ToolFindings(p, h, c, failures);
    var score := HighestScore(findings);
    FoundIffDue(p, h, c, failures);
    MaxScoreIsMax(findings);
    a := Some(Assessment(DecideFromScore(p, score), score, findings));
  }

  // The size of a result: the length of a list, and otherwise 1 or 0.
  function RecordCount(result: Value): nat {
    if result.List? then |result.items| else if Truthy(result) then 1 else 0
  }

  function AssessResult(p: Policy, result: Value): Assessment {
    Assess(p, Noting([], RecordCount(result) > p.maxRecords, ExcessiveRecords, 85))
  }

  // --- What the score means ---------------------------------------------------------------

  // A call is allowed exactly if no finding reaches the lower of the two thresholds, and,
  // without findings, 0 does not reach it either.
  lemma AllowedIff(p: Policy, fs: seq<Finding>)
    ensures Assess(p, fs).decision == ALLOW <==>
            && (fs == [] ==> 0 < p.review && 0 < p.block)
            && forall i :: 0 <= i < |fs| ==> fs[i].score < p.review && fs[i].score < p.block
  {
    hide MaxScore;
    MaxScoreIsMax(fs);
  }

  // The threshold is reached: by a finding that is due, or by 0 if there is none.
  ghost predicate Reaches(p: Policy, h: Host, c: Call, failures: nat, threshold: int) {
    if exists f :: Due(p, h, c, failures, f) then exists f :: Due(p, h, c, failures, f) && f.score >= threshold
    else 0 >= threshold
  }

  lemma ReachedByMax(p: Policy, h: Host, c: Call, failures: nat, f: Finding, threshold: int)
    requires Due(p, h, c, failures, f) && forall g :: Due(p, h, c, failures, g) ==> g.score <= f.score
    ensures Reaches(p, h, c, failures, threshold) <==> f.score >= threshold
  {
    hide Due;
  }

  // What is decided on a call.
  lemma DecisionMeans(p: Policy, h: Host, c: Call, failures: nat)
    ensures var d := Assess(p, CallFindings(p, h, c, failures)).decision;
            && (d == BLOCK <==> Reaches(p, h, c, failures, p.block))
            && (d == REVIEW <==> Reaches(p, h, c, failures, p.review) && !Reaches(p, h, c, failures, p.block))
  {
    hide Due, CallFindings, MaxScore;
    var fs := CallFindings(p, h, c, failures);
    FoundIffDue(p, h, c, failures);
    MaxScoreIsMax(fs);
    if fs != [] {
      assert fs[0] in fs;
      var i :| 0 <= i < |fs| && fs[i].score == MaxScore(fs);
      assert fs[i] in fs && Due(p, h, c, failures, fs[i]);
      ReachedByMax(p, h, c, failures, fs[i], p.block);
      ReachedByMax(p, h, c, failures, fs[i], p.review);
    }
  }

  lemma DueReaches(p: Policy, h: Host, c: Call, failures: nat, f: Finding, threshold: int)
    requires Due(p, h, c, failures, f) && f.score >= threshold
    ensures Reaches(p, h, c, failures, threshold)
  {
    hide Due;
  }

  // So these calls are blocked, and repeated failures are not allowed, under thresholds
  // that are not above the scores.
  lemma CallsBlocked(p: Policy, h: Host, c: Call, failures: nat)
    ensures var d := Assess(p, CallFindings(p, h, c, failures)).decision;
            && (c.granted != {} && c.tool !in c.granted && p.block <= 92 ==> d == BLOCK)
            && (c.tool in p.blockedTools && p.block <= 90 ==> d == BLOCK)
            && (p.allowedTools != [] && c.tool !in p.allowedTools && p.block <= 85 ==> d == BLOCK)
            && ((exists t :: t in p.blockedPatterns && h.matches(c.query, t)) && p.block <= 85 ==> d == BLOCK)
            && (c.tool == "search_customers" && "filter" !in c.args && p.block <= 82 ==> d == BLOCK)
            && (failures >= 3 && p.review <= 55 ==> d != ALLOW)
  {
    hide CallFindings, Assess, Reaches;
    DecisionMeans(p, h, c, failures);
    forall f, threshold | Due(p, h, c, failures, f) && f.score >= threshold
      ensures Reaches(p, h, c, failures, threshold)
    {
      DueReaches(p, h, c, failures, f, threshold);
    }
    assert c.granted != {} && c.tool !in c.granted ==> Due(p, h, c, failures, Finding(PermissionDenied, 92));
    assert c.tool in p.blockedTools ==> Due(p, h, c, failures, Finding(BlockedTool, 90));
    assert p.allowedTools != [] && c.tool !in p.allowedTools ==> Due(p, h, c, failures, Finding(ToolNotAllowed, 85));
    assert (exists t :: t in p.blockedPatterns && h.matches(c.query, t)) ==> Due(p, h, c, failures, Finding(PromptInjection, 85));
    assert c.tool == "search_customers" && "filter" !in c.args ==> Due(p, h, c, failures, Finding(BulkSearch, 82));
    assert failures >= 3 ==> Due(p, h, c, failures, Finding(RepeatedFailures, 55));
  }

  // A result is too large if it is a list of more records than the policy admits, or
  // anything at all when it admits none.
  ghost predicate TooLarge(p: Policy, result: Value) {
    if result.List? then |result.items| > p.maxRecords
    else if Truthy(result) then 1 > p.maxRecords
    else 0 > p.maxRecords
  }

  lemma ResultMeans(p: Policy, result: Value)
    ensures Decided(p, if TooLarge(p, result) then 85 else 0, AssessResult(p, result).decision)
  {
  }

  // The finding of repeated failures is made exactly from three failed calls on.
  lemma RepeatedIff(p: Policy, h: Host, c: Call, failures: nat)
    ensures failures >= 3 ==>
              exists i :: 0 <= i < |CallFindings(p, h, c, failures)| && CallFindings(p, h, c, failures)[i] == Finding(RepeatedFailures, 55)
    ensures failures < 3 ==> CallFindings(p, h, c, failures) == CallFindings(p, h, c, 0)
  {
    hide Denied, LacksArguments, LeavesScope, LacksFilter, OverLimit, NeedsReview, Bulk, WantsEmail, RuleFindings;
    var fs := CallFindings(p, h, c, failures);
    if failures >= 3 {
      assert fs[|fs| - 1] == Finding(RepeatedFailures, 55);
    }
  }
}
