// Normalisation read off a payload: what every node and edge of the normalised graph says,
// and which payloads are refused, field by field and word by word
// (intelliguard/workflows/graph.py:8-284).
module GraphReference {
  import opened Outcomes
  import opened Json
  import opened WorkflowGraph
  import Laws = WorkflowGraphLaws

  // --- Values -----------------------------------------------------------------------------

  // What bool() takes for false.
  ghost predicate Empty(v: Value) {
    || v == Null || v == Bool(false) || v == String("") || (v.Number? && v.zero)
    || (v.List? && v.items == []) || (v.Object? && v.fields == map[])
  }

  ghost predicate Has(d: Dict, k: Key) {
    k in d && !Empty(d[k])
  }

  ghost function TextOf(v: Value): string {
    if v.String? then v.s else Shown(v)
  }

  // The text under k, or else under k', or else none; without the spaces around it.
  ghost function NameAt(d: Dict, k: Key, k': Key): string {
    if Has(d, k) then Strip(TextOf(d[k])) else if Has(d, k') then Strip(TextOf(d[k'])) else Strip("")
  }

  ghost function TextAt(d: Dict, k: Key, default: string): string {
    if Has(d, k) then TextOf(d[k]) else default
  }

  ghost function DictAt(d: Dict, k: Key): Value {
    if k in d && d[k].Object? then d[k] else Object(map[], "{}")
  }

  ghost function NonEmptyTexts(vs: seq<Value>): seq<string> {
    if |vs| == 0 then []
    else
      var last := TextOf(vs[|vs| - 1]);
      if last == "" then NonEmptyTexts(vs[..|vs| - 1]) else NonEmptyTexts(vs[..|vs| - 1]) + [last]
  }

  // The items of a list as texts, in order, without the empty ones.
  ghost function TextsAt(d: Dict, k: Key): seq<string> {
    if k in d && d[k].List? then NonEmptyTexts(d[k].items) else []
  }

  // --- Words --------------------------------------------------------------------------------

  // The node type a name stands for.
  ghost function TypeNamed(name: string): string {
    if Strip(name) == "lead_orchestrator" then "lead_agent"
    else if Strip(name) in {"sub_agent", "specialist_agent", "support_assistant", "custom_agent", "cli_agent"} then "task_agent"
    else Strip(name)
  }

  ghost predicate KnownType(t: string) {
    t in {"gate_agent", "lead_agent", "task_agent", "review_agent", "approval_agent", "terminal_agent"}
  }

  ghost function UsualPolicy(t: string): string {
    if t in {"lead_agent", "gate_agent"} then "always"
    else if t == "review_agent" then "on_risk"
    else if t == "approval_agent" then "human_required"
    else "conditional"
  }

  ghost function UsualStage(t: string): string {
    if t in {"lead_agent", "gate_agent"} then "pre_route"
    else if t in {"review_agent", "approval_agent", "terminal_agent"} then "final_review"
    else "routed"
  }

  // --- Nodes ---------------------------------------------------------------------------------

  // The type an agent is registered with.
  ghost function TypeOfAgent(types: map<string, string>, agent: string): string {
    TypeNamed(if agent in types then types[agent] else "")
  }

  // The raw node with nine fields written.
  ghost function Written(raw: Dict, t: string): Dict {
    raw[NodeId := String(NameAt(raw, NodeId, StepId))]
       [AgentId := String(NameAt(raw, AgentId, AgentId))]
       [NodeType := String(t)]
       [ActivationPolicy := String(TextAt(raw, ActivationPolicy, UsualPolicy(t)))]
       [ActivationStage := String(TextAt(raw, ActivationStage, UsualStage(t)))]
       [Capabilities := Strings(TextsAt(raw, Capabilities))]
       [AllowedTools := Strings(TextsAt(raw, AllowedTools))]
       [DataScope := DictAt(raw, DataScope)]
       [SideEffectLevel := String(TextAt(raw, SideEffectLevel, "read_only"))]
  }

  // The raw node is accepted: it has an id and an agent of a known type, claims no other
  // type, and names no unknown policy or stage.
  ghost predicate Admitted(raw: Dict, t: string) {
    && NameAt(raw, NodeId, StepId) != "" && NameAt(raw, AgentId, AgentId) != "" && KnownType(t)
    && (Has(raw, NodeType) ==> TypeNamed(TextOf(raw[NodeType])) == t)
    && TextAt(raw, ActivationPolicy, UsualPolicy(t)) in {"always", "on_risk", "conditional", "human_required"}
    && TextAt(raw, ActivationStage, UsualStage(t)) in {"pre_tool", "post_tool", "pre_route", "routed", "final_review"}
  }

  // n is what becomes of the raw node.
  ghost predicate NodeOfRaw(raw: Dict, types: map<string, string>, n: Dict) {
    var t := TypeOfAgent(types, NameAt(raw, AgentId, AgentId));
    Admitted(raw, t) && n == Written(raw, t)
  }

  ghost predicate IdsDiffer(ns: seq<Dict>) {
    forall i, j :: 0 <= i < j < |ns| && NodeId in ns[i] && NodeId in ns[j] ==> ns[i][NodeId] != ns[j][NodeId]
  }

  ghost predicate NodesOfRaws(raws: seq<Dict>, types: map<string, string>, ns: seq<Dict>) {
    && |ns| == |raws|
    && (forall i :: 0 <= i < |ns| ==> NodeOfRaw(raws[i], types, ns[i]))
    && IdsDiffer(ns)
  }

  lemma EmptyIff(v: Value)
    ensures Empty(v) <==> !Truthy(v)
    ensures Shown(v) == TextOf(v)
  {
  }

  lemma OrMeans(d: Dict, k: Key, v: Value)
    ensures Or(Get(d, k), v) == if Has(d, k) then d[k] else v
  {
    hide Empty;
    EmptyIff(Get(d, k));
  }

  lemma OrOrMeans(d: Dict, k: Key, k': Key, v: Value)
    ensures Or(Or(Get(d, k), Get(d, k')), v) == if Has(d, k) then d[k] else if Has(d, k') then d[k'] else v
  {
    hide Empty, Truthy;
    OrMeans(d, k, Get(d, k'));
    OrMeans(d, k', v);
    if Has(d, k) { EmptyIff(d[k]); }
  }

  lemma NameMeans(d: Dict, k: Key, k': Key)
    ensures IdOf(d, k, k') == NameAt(d, k, k')
  {
    hide Strip, Has, Or, Get;
    OrOrMeans(d, k, k', String(""));
  }

  lemma TextMeans(d: Dict, k: Key, default: string)
    ensures Shown(Or(Get(d, k), String(default))) == TextAt(d, k, default)
  {
    hide Has, Or, Get;
    OrMeans(d, k, String(default));
  }

  lemma {:induction false} TextsMean(vs: seq<Value>)
    ensures Texts(vs) == NonEmptyTexts(vs)
  {
    if |vs| > 0 {
      TextsMean(vs[..|vs| - 1]);
      assert NonEmptyTexts(vs[..|vs| - 1]) + [] == NonEmptyTexts(vs[..|vs| - 1]);
    }
  }

  lemma ListMeans(d: Dict, k: Key)
    ensures ListValue(Get(d, k)) == Strings(TextsAt(d, k))
    ensures ObjectOr(Get(d, k)) == DictAt(d, k)
  {
    if k in d && d[k].List? {
      TextsMean(d[k].items);
    }
  }

  lemma WordsMean(t: string)
    ensures NormalType(VOCABULARY, t) == TypeNamed(t)
    ensures t in VOCABULARY.nodeTypes <==> KnownType(t)
    ensures KnownType(t) ==>
              Default(VOCABULARY.defaultPolicy, t) == UsualPolicy(t) && Default(VOCABULARY.defaultStage, t) == UsualStage(t)
    ensures VOCABULARY.policies == {"always", "on_risk", "conditional", "human_required"}
    ensures VOCABULARY.stages == {"pre_tool", "post_tool", "pre_route", "routed", "final_review"}
  {
    hide Strip;
  }

  // A node type is its own name.
  lemma TypeNamesItself(t: string)
    requires KnownType(t)
    ensures TypeNamed(t) == t
  {
    hide VOCABULARY, TypeNamed, KnownType, NormalType, Sound;
    VocabularySound();
    WordsMean(t);
    Laws.WordsFixed(VOCABULARY, t);
  }

  lemma TypesMean(raw: Dict, types: map<string, string>)
    ensures var reg, t := Registry(VOCABULARY, types), TypeOfAgent(types, NameAt(raw, AgentId, AgentId));
            && RegisteredType(raw, reg) == t
            && ClaimedType(raw, reg) == (if Has(raw, NodeType) then TypeNamed(TextOf(raw[NodeType])) else TypeNamed(t))
  {
    hide VOCABULARY, NormalType, TypeNamed, Strip, IdOf, NameAt, Has;
    var reg := Registry(VOCABULARY, types);
    NameMeans(raw, AgentId, AgentId);
    WordsMean(Registered(reg, AgentIdOf(raw)));
    TextMeans(raw, NodeType, RegisteredType(raw, reg));
    WordsMean(TextAt(raw, NodeType, RegisteredType(raw, reg)));
  }

  lemma FilledMeans(raw: Dict, types: map<string, string>, t: string)
    requires ClaimedType(raw, Registry(VOCABULARY, types)) == t && KnownType(t)
    ensures Filled(raw, Registry(VOCABULARY, types)) == Written(raw, t)
    ensures PolicyOf(raw, Registry(VOCABULARY, types)) == TextAt(raw, ActivationPolicy, UsualPolicy(t))
    ensures StageOf(raw, Registry(VOCABULARY, types)) == TextAt(raw, ActivationStage, UsualStage(t))
  {
    hide VOCABULARY, ClaimedType, TextAt, DictAt, TextsAt, ListValue, ObjectOr, Strings, NameAt, IdOf,
         KnownType, UsualPolicy, UsualStage, Default, Or, Get, Shown;
    WordsMean(t);
    NameMeans(raw, NodeId, StepId);
    NameMeans(raw, AgentId, AgentId);
    TextMeans(raw, ActivationPolicy, UsualPolicy(t));
    TextMeans(raw, ActivationStage, UsualStage(t));
    TextMeans(raw, SideEffectLevel, "read_only");
    ListMeans(raw, Capabilities);
    ListMeans(raw, AllowedTools);
    ListMeans(raw, DataScope);
  }

  // A round of the node loop appends n exactly if n is what becomes of the raw node and its
  // id is new.
  lemma NodeMeans(raw: Dict, seen: set<string>, types: map<string, string>, n: Dict)
    ensures NodeOf(raw, seen, Registry(VOCABULARY, types)) == Ok(n) <==>
            NodeOfRaw(raw, types, n) && NameAt(raw, NodeId, StepId) !in seen
  {
    hide VOCABULARY, ClaimedType, RegisteredType, TypeNamed, TypeOfAgent, TextAt, NameAt, IdOf, PolicyOf, StageOf, Has,
         KnownType, UsualPolicy, UsualStage, Filled, Written;
    var reg, t := Registry(VOCABULARY, types), TypeOfAgent(types, NameAt(raw, AgentId, AgentId));
    NameMeans(raw, NodeId, StepId);
    NameMeans(raw, AgentId, AgentId);
    TypesMean(raw, types);
    WordsMean(t);
    if KnownType(t) {
      TypeNamesItself(t);
      WordsMean(ClaimedType(raw, reg));
      if ClaimedType(raw, reg) == t {
        FilledMeans(raw, types, t);
      }
    }
  }

  lemma WrittenId(raw: Dict, t: string)
    ensures NodeId in Written(raw, t) && Written(raw, t)[NodeId] == String(NameAt(raw, NodeId, StepId))
  {
    hide NameAt, TextAt, TextsAt, Strings, DictAt;
  }

  lemma NamesDiffer(ns: seq<Dict>, n: Dict, id: string)
    requires (forall m: Dict :: m in ns ==> NodeId in m && m[NodeId].String?) && NodeId in n && n[NodeId] == String(id)
    ensures IdsDiffer(ns + [n]) <==> IdsDiffer(ns) && id !in Named(ns, NodeId)
  {
    var all := ns + [n];
    if IdsDiffer(all) {
      forall i, j | 0 <= i < j < |ns| && NodeId in ns[i] && NodeId in ns[j]
        ensures ns[i][NodeId] != ns[j][NodeId]
      {
        assert all[i] == ns[i] && all[j] == ns[j];
      }
      forall i | 0 <= i < |ns|
        ensures ns[i][NodeId] != n[NodeId]
      {
        assert all[i] == ns[i] && all[|ns|] == n;
      }
    }
    if IdsDiffer(ns) && id !in Named(ns, NodeId) {
      forall i, j | 0 <= i < j < |all| && NodeId in all[i] && NodeId in all[j]
        ensures all[i][NodeId] != all[j][NodeId]
      {
        assert i < |ns| && all[i] == ns[i] && ns[i] in ns;
        assert Get(ns[i], NodeId).s in Named(ns, NodeId);
        assert j < |ns| ==> all[j] == ns[j];
      }
    }
  }

  lemma RawNamed(raw: Dict, types: map<string, string>, n: Dict)
    requires NodeOfRaw(raw, types, n)
    ensures NodeId in n && n[NodeId] == String(NameAt(raw, NodeId, StepId))
  {
    hide Written, Admitted, NameAt;
    WrittenId(raw, TypeOfAgent(types, NameAt(raw, AgentId, AgentId)));
  }

  lemma RawsNamed(raws: seq<Dict>, types: map<string, string>, ns: seq<Dict>)
    requires NodesOfRaws(raws, types, ns)
    ensures forall m: Dict :: m in ns ==> NodeId in m && m[NodeId].String?
  {
    hide NodeOfRaw;
    forall m: Dict | m in ns
      ensures NodeId in m && m[NodeId].String?
    {
      var i :| 0 <= i < |ns| && ns[i] == m;
      RawNamed(raws[i], types, m);
    }
  }

  // One node more.
  lemma NodesSnoc(raws: seq<Dict>, raw: Dict, types: map<string, string>, ns: seq<Dict>, n: Dict)
    requires NodesOfRaws(raws, types, ns)
    ensures NodesOfRaws(raws + [raw], types, ns + [n]) <==>
            NodeOfRaw(raw, types, n) && NameAt(raw, NodeId, StepId) !in Named(ns, NodeId)
  {
    hide NodeOfRaw, NameAt, Named, IdsDiffer;
    assert (raws + [raw])[|raws|] == raw && (ns + [n])[|ns|] == n;
    RawsNamed(raws, types, ns);
    if NodeOfRaw(raw, types, n) {
      RawNamed(raw, types, n);
      NamesDiffer(ns, n, NameAt(raw, NodeId, StepId));
    }
  }

  lemma NodesFront(raws: seq<Dict>, types: map<string, string>, ns: seq<Dict>)
    requires NodesOfRaws(raws, types, ns) && |raws| > 0
    ensures NodesOfRaws(raws[..|raws| - 1], types, ns[..|ns| - 1])
  {
    hide NodeOfRaw;
  }

  lemma NoNodes(types: map<string, string>, ns: seq<Dict>)
    ensures NodesOfRaws([], types, ns) <==> ns == []
  {
  }

  lemma NodesLength(raws: seq<Dict>, types: map<string, string>, ns: seq<Dict>)
    requires NodesOfRaws(raws, types, ns)
    ensures |ns| == |raws|
  {
  }

  // The node loop gives ns exactly if each is what becomes of its raw node and no two have
  // the same id.
  lemma {:induction false} NodesMean(raws: seq<Dict>, types: map<string, string>, ns: seq<Dict>)
    ensures NodesOf(raws, Registry(VOCABULARY, types)) == Ok(ns) <==> NodesOfRaws(raws, types, ns)
  {
    hide VOCABULARY, NodeOf, NodeOfRaw, NameAt, Named, NodesOfRaws;
    var reg := Registry(VOCABULARY, types);
    if |raws| == 0 {
      NoNodes(types, ns);
    } else {
      var front, raw := raws[..|raws| - 1], raws[|raws| - 1];
      assert raws == front + [raw];
      if NodesOf(raws, reg) == Ok(ns) {
        var ms := NodesOf(front, reg).value;
        NodesMean(front, types, ms);
        var n := NodeOf(raw, Named(ms, NodeId), reg).value;
        NodeMeans(raw, Named(ms, NodeId), types, n);
        NodesSnoc(front, raw, types, ms, n);
      }
      if NodesOfRaws(raws, types, ns) {
        NodesLength(raws, types, ns);
        var ms, n := ns[..|ns| - 1], ns[|ns| - 1];
        assert ns == ms + [n];
        NodesFront(raws, types, ns);
        NodesMean(front, types, ms);
        NodesSnoc(front, raw, types, ms, n);
        NodeMeans(raw, Named(ms, NodeId), types, n);
      }
    }
  }

  // --- Edges ------------------------------------------------------------------------------------

  ghost function EndOf(raw: Dict): (string, string) {
    (NameAt(raw, FromNodeId, From), NameAt(raw, ToNodeId, To))
  }

  ghost function EdgeName(raw: Dict): string {
    TextAt(raw, EdgeId, EndOf(raw).0 + "->" + EndOf(raw).1)
  }

  // The raw edge leads from one node of the graph to another, and not into the lead node.
  ghost predicate Leads(raw: Dict, ids: set<string>) {
    var (source, target) := EndOf(raw);
    source != "" && target != "" && source != target && source in ids && target in ids && target != "lead"
  }

  ghost function EdgeOfRaw(raw: Dict): Dict {
    raw[EdgeId := String(EdgeName(raw))]
       [FromNodeId := String(EndOf(raw).0)]
       [ToNodeId := String(EndOf(raw).1)]
       [Conditions := DictAt(raw, Conditions)]
  }

  // The raw edges whose name no earlier one has, in order.
  ghost function FirstNamed(raws: seq<Dict>): seq<Dict> {
    if |raws| == 0 then []
    else
      var front, raw := raws[..|raws| - 1], raws[|raws| - 1];
      if exists x :: x in front && EdgeName(x) == EdgeName(raw) then FirstNamed(front) else FirstNamed(front) + [raw]
  }

  ghost predicate EdgesOfRaws(raws: seq<Dict>, ids: set<string>, es: seq<Dict>) {
    && (forall raw :: raw in raws ==> Leads(raw, ids))
    && |es| == |FirstNamed(raws)|
    && forall i :: 0 <= i < |es| ==> es[i] == EdgeOfRaw(FirstNamed(raws)[i])
  }

  lemma EndsMean(raw: Dict)
    ensures SourceOf(raw) == EndOf(raw).0 && TargetOf(raw) == EndOf(raw).1
    ensures EdgeIdOf(raw) == EdgeName(raw)
    ensures Joined(raw) == EdgeOfRaw(raw)
  {
    hide NameAt, IdOf, TextAt, Or, Get, Shown, ObjectOr, DictAt;
    NameMeans(raw, FromNodeId, From);
    NameMeans(raw, ToNodeId, To);
    TextMeans(raw, EdgeId, EndOf(raw).0 + "->" + EndOf(raw).1);
    ListMeans(raw, Conditions);
  }

  // The names of the edges so far are those of the raw edges.
  ghost predicate SameNames(raws: seq<Dict>, es: seq<Dict>) {
    forall id :: id in Named(es, EdgeId) <==> exists x :: x in raws && EdgeName(x) == id
  }

  lemma EdgeMeans(raw: Dict, seen: set<string>, ids: set<string>)
    ensures EdgeOf(raw, seen, ids).Ok? <==> Leads(raw, ids)
    ensures Leads(raw, ids) ==> EdgeOf(raw, seen, ids).value == if EdgeName(raw) in seen then None else Some(EdgeOfRaw(raw))
  {
    hide EdgeName, SourceOf, TargetOf, EdgeIdOf, Joined, EdgeOfRaw, NameAt;
    EndsMean(raw);
  }

  lemma EdgeOfRawNamed(raw: Dict)
    ensures Get(EdgeOfRaw(raw), EdgeId) == String(EdgeName(raw))
  {
    hide EndOf, EdgeName, DictAt;
  }

  // One edge more.
  lemma EdgesSnoc(front: seq<Dict>, raw: Dict, ids: set<string>, es: seq<Dict>)
    requires SameNames(front, es) && EdgesOfRaws(front, ids, es) && Leads(raw, ids)
    ensures var es' := if EdgeName(raw) in Named(es, EdgeId) then es else es + [EdgeOfRaw(raw)];
            SameNames(front + [raw], es') && EdgesOfRaws(front + [raw], ids, es')
  {
    hide EdgeName, EdgeOfRaw, Leads, Named;
    var raws := front + [raw];
    assert raws[..|raws| - 1] == front;
    assert forall x :: x in raws <==> x in front || x == raw;
    EdgeOfRawNamed(raw);
    NamedStep(es, EdgeOfRaw(raw), EdgeId);
  }

  lemma NoEdges(ids: set<string>)
    ensures EdgesOf([], ids) == Ok([]) && SameNames([], []) && EdgesOfRaws([], ids, [])
  {
  }

  lemma {:induction false} EdgesMean(raws: seq<Dict>, ids: set<string>)
    ensures EdgesOf(raws, ids).Ok? <==> forall raw :: raw in raws ==> Leads(raw, ids)
    ensures EdgesOf(raws, ids).Ok? ==>
              SameNames(raws, EdgesOf(raws, ids).value) && EdgesOfRaws(raws, ids, EdgesOf(raws, ids).value)
  {
    hide EdgeOf, EdgeName, EdgeOfRaw, Leads, SameNames, EdgesOfRaws;
    if |raws| == 0 {
      NoEdges(ids);
    } else {
      var front, raw := raws[..|raws| - 1], raws[|raws| - 1];
      EdgesMean(front, ids);
      assert raws == front + [raw];
      assert forall x :: x in raws <==> x in front || x == raw;
      if EdgesOf(front, ids).Ok? {
        var es := EdgesOf(front, ids).value;
        EdgeMeans(raw, Named(es, EdgeId), ids);
        if Leads(raw, ids) {
          EdgesSnoc(front, raw, ids, es);
        }
      }
    }
  }

  // The edge loop gives es exactly if every raw edge leads somewhere and es are the first
  // ones of each name, in order.
  lemma EdgesReference(raws: seq<Dict>, ids: set<string>, es: seq<Dict>)
    ensures EdgesOf(raws, ids) == Ok(es) <==> EdgesOfRaws(raws, ids, es)
  {
    hide EdgesOf, Leads, FirstNamed, EdgeOfRaw;
    EdgesMean(raws, ids);
    if EdgesOf(raws, ids).Ok? && EdgesOfRaws(raws, ids, es) {
      assert EdgesOf(raws, ids).value == es;
    }
  }

  // --- Payloads without a graph -------------------------------------------------------------------

  // The node made up for the lead agent.
  ghost predicate IsLeadNode(n: Dict, agent: string) {
    && n.Keys == {NodeId, AgentId, NodeType, ActivationPolicy, ActivationStage, Capabilities, AllowedTools, DataScope,
                  SideEffectLevel}
    && n[NodeId] == String("lead") && n[AgentId] == String(agent) && n[NodeType] == String("lead_agent")
    && n[ActivationPolicy] == String("always") && n[ActivationStage] == String("pre_route")
    && n[Capabilities] == Strings(["route_request", "coordinate_workflow"]) && n[AllowedTools] == Strings([])
    && n[DataScope] == Object(map[], "{}") && n[SideEffectLevel] == String("none")
  }

  ghost function ValueAt(d: Dict, k: Key, default: Value): Value {
    if Has(d, k) then d[k] else default
  }

  ghost function Entry(d: Dict, k: Key): Value {
    if k in d then d[k] else Null
  }

  // What a step is known by.
  ghost function StepKey(step: Dict): Value {
    ValueAt(step, StepId, Entry(step, AgentId))
  }

  const MADE := {NodeId, NodeType, ActivationPolicy, ActivationStage, Capabilities, AllowedTools, DataScope, SideEffectLevel}

  // The step's own fields are kept but for these.
  ghost predicate Keeps(n: Dict, step: Dict) {
    n.Keys == step.Keys + MADE && forall k :: k in step && k !in MADE ==> n[k] == step[k]
  }

  // The node made up for a step.
  ghost predicate IsStepNode(n: Dict, step: Dict) {
    && Keeps(n, step)
    && n[NodeId] == StepKey(step) && n[NodeType] == Entry(step, NodeType)
    && n[ActivationPolicy] == ValueAt(step, ActivationPolicy, String("conditional"))
    && n[ActivationStage] == ValueAt(step, ActivationStage, String("routed"))
    && n[Capabilities] == ValueAt(step, Capabilities, List([ValueAt(step, Task, ValueAt(step, Label, String("")))], "[]"))
    && n[AllowedTools] == List(if Has(step, ToolName) then [step[ToolName]] else [], "[]")
    && n[DataScope] == ValueAt(step, DataScope, Object(map[], "{}"))
    && n[SideEffectLevel] == ValueAt(step, SideEffectLevel, String("read_only"))
  }

  // The edge made up for a connection of the editor.
  ghost predicate IsVisualEdge(e: Dict, item: Dict) {
    && e.Keys == {EdgeId, FromNodeId, ToNodeId, Conditions}
    && e[EdgeId] == String(TextOf(Entry(item, From)) + "->" + TextOf(Entry(item, To)))
    && e[FromNodeId] == Entry(item, From) && e[ToNodeId] == Entry(item, To)
    && e[Conditions] == ValueAt(item, Conditions, Object(map[], "{}"))
  }

  // The edge from the lead node made up for a step.
  ghost predicate IsStepEdge(e: Dict, step: Dict) {
    && e.Keys == {EdgeId, FromNodeId, ToNodeId, Conditions}
    && e[EdgeId] == String("lead->" + TextOf(StepKey(step)))
    && e[FromNodeId] == String("lead") && e[ToNodeId] == StepKey(step)
    && e[Conditions] == Object(map[], "{}")
  }

  // The dicts of a list, in order.
  ghost function DictsIn(vs: seq<Value>): seq<Dict> {
    if |vs| == 0 then []
    else if vs[|vs| - 1].Object? then DictsIn(vs[..|vs| - 1]) + [vs[|vs| - 1].fields]
    else DictsIn(vs[..|vs| - 1])
  }

  ghost predicate FilledList(v: Value) {
    v.List? && v.items != []
  }

  // The raw nodes of a payload.
  ghost predicate RawNodes(p: Payload, steps: seq<Dict>, raws: seq<Dict>) {
    if FilledList(p.nodes) then raws == DictsIn(p.nodes.items)
    else
      && |raws| == |steps| + 1 && IsLeadNode(raws[0], p.leadAgentId)
      && forall i :: 0 <= i < |steps| ==> IsStepNode(raws[i + 1], steps[i])
  }

  ghost function VisualItems(p: Payload): Option<seq<Dict>> {
    if p.metadata.Object? && VisualConnections in p.metadata.fields && p.metadata.fields[VisualConnections].List? then
      Some(DictsIn(p.metadata.fields[VisualConnections].items))
    else None
  }

  // The raw edges of a payload.
  ghost predicate RawEdges(p: Payload, steps: seq<Dict>, raws: seq<Dict>) {
    if FilledList(p.edges) then raws == DictsIn(p.edges.items)
    else match VisualItems(p)
      case Some(items) => |raws| == |items| && forall i :: 0 <= i < |items| ==> IsVisualEdge(raws[i], items[i])
      case None => |raws| == |steps| && forall i :: 0 <= i < |steps| ==> IsStepEdge(raws[i], steps[i])
  }

  // The steps of a payload: those that are dicts, if it has a list of them.
  ghost predicate RawSteps(p: Payload, steps: seq<Dict>) {
    if p.steps.Some? && p.steps.value.List? then steps == DictsIn(p.steps.value.items)
    else steps == [] && (p.steps.Some? ==> p.steps.value.String? || p.steps.value.Object?)
  }

  lemma {:induction false} DictsMean(vs: seq<Value>)
    ensures Dicts(vs) == DictsIn(vs)
  {
    if |vs| > 0 {
      DictsMean(vs[..|vs| - 1]);
      assert Dicts(vs[..|vs| - 1]) + [] == Dicts(vs[..|vs| - 1]);
    }
  }

  lemma HasMeans(d: Dict, k: Key)
    ensures Truthy(Get(d, k)) <==> Has(d, k)
  {
    EmptyIff(Get(d, k));
  }

  lemma ValueMeans(d: Dict, k: Key, v: Value)
    ensures Or(Get(d, k), v) == ValueAt(d, k, v)
    ensures Get(d, k) == Entry(d, k)
    ensures Truthy(Get(d, k)) <==> Has(d, k)
  {
    hide Has;
    OrMeans(d, k, v);
    EmptyIff(Get(d, k));
    assert Truthy(Get(d, k)) <==> Has(d, k) by { HasMeans(d, k); }
  }

  lemma StepNodeKeeps(step: Dict)
    ensures Keeps(NodeFromStep(step), step)
  {
    hide Or, Get, Truthy;
  }

  lemma StepTask(step: Dict)
    ensures Or(Or(Get(step, Task), Get(step, Label)), String("")) == ValueAt(step, Task, ValueAt(step, Label, String("")))
  {
    hide Or, Has, Get;
    OrOrMeans(step, Task, Label, String(""));
  }

  lemma ToolEntry(step: Dict)
    ensures Has(step, ToolName) ==> Get(step, ToolName) == step[ToolName]
  {
  }

  lemma StepNodeMeans(step: Dict)
    ensures IsStepNode(NodeFromStep(step), step)
  {
    hide Or, Has, ValueAt, Truthy, Get, Entry, Keeps;
    StepNodeKeeps(step);
    assert MADE <= NodeFromStep(step).Keys;
    ValueMeans(step, StepId, Entry(step, AgentId));
    ValueMeans(step, AgentId, Null);
    ValueMeans(step, NodeType, Null);
    ValueMeans(step, ActivationPolicy, String("conditional"));
    ValueMeans(step, ActivationStage, String("routed"));
    StepTask(step);
    ValueMeans(step, Capabilities, List([ValueAt(step, Task, ValueAt(step, Label, String("")))], "[]"));
    ValueMeans(step, ToolName, Null);
    ValueMeans(step, DataScope, Object(map[], "{}"));
    ValueMeans(step, SideEffectLevel, String("read_only"));
    ToolEntry(step);
  }

  lemma EdgesMadeUp(d: Dict)
    ensures IsVisualEdge(VisualEdge(d), d) && IsStepEdge(StepEdge(d), d)
  {
    hide Or, Has, ValueAt, Get, Entry;
    ValueMeans(d, From, Null);
    ValueMeans(d, To, Null);
    ValueMeans(d, Conditions, Object(map[], "{}"));
    ValueMeans(d, AgentId, Null);
    ValueMeans(d, StepId, Entry(d, AgentId));
    EmptyIff(Entry(d, From));
    EmptyIff(Entry(d, To));
    EmptyIff(StepKey(d));
  }

  // What is made up for a step or connection is determined by it.
  lemma MadeUpOnce(n: Dict, m: Dict, d: Dict, agent: string)
    ensures IsLeadNode(n, agent) && IsLeadNode(m, agent) ==> n == m
    ensures IsVisualEdge(n, d) && IsVisualEdge(m, d) ==> n == m
    ensures IsStepEdge(n, d) && IsStepEdge(m, d) ==> n == m
  {
    hide StepKey, ValueAt, Entry;
  }

  lemma StepNodeOnce(n: Dict, m: Dict, step: Dict)
    requires IsStepNode(n, step) && IsStepNode(m, step)
    ensures n == m
  {
    hide StepKey, ValueAt, Entry, Has;
    forall k | k in n.Keys
      ensures n[k] == m[k]
    {
    }
  }

  lemma StepsMean(p: Payload, steps: seq<Dict>)
    ensures StepsOf(p) == Ok(steps) <==> RawSteps(p, steps)
  {
    if p.steps.Some? && p.steps.value.List? {
      DictsMean(p.steps.value.items);
    }
  }

  lemma LeadNodeMeans(agent: string)
    ensures IsLeadNode(LeadNode(agent), agent)
  {
  }

  lemma NodeInputsMean(p: Payload, steps: seq<Dict>)
    ensures RawNodes(p, steps, Dicts(NodeInputs(p, steps)))
  {
    hide IsStepNode, NodeFromStep, LeadNode, IsLeadNode;
    if FilledList(p.nodes) {
      DictsMean(p.nodes.items);
    } else {
      var raws := [LeadNode(p.leadAgentId)] + NodesFromSteps(steps);
      DictsOfListed(raws);
      LeadNodeMeans(p.leadAgentId);
      forall i | 0 <= i < |steps|
        ensures IsStepNode(raws[i + 1], steps[i])
      {
        StepNodeMeans(steps[i]);
      }
    }
  }

  lemma EdgeInputsMean(p: Payload, steps: seq<Dict>)
    ensures RawEdges(p, steps, Dicts(EdgeInputs(p, steps)))
  {
    hide IsVisualEdge, IsStepEdge, VisualEdge, StepEdge;
    if FilledList(p.edges) {
      DictsMean(p.edges.items);
    } else {
      var raws := FallbackEdges(p, steps);
      DictsOfListed(raws);
      if VisualItems(p).Some? {
        DictsMean(p.metadata.fields[VisualConnections].items);
        var items := VisualItems(p).value;
        forall i | 0 <= i < |items|
          ensures IsVisualEdge(raws[i], items[i])
        {
          EdgesMadeUp(items[i]);
        }
      } else {
        forall i | 0 <= i < |steps|
          ensures IsStepEdge(raws[i], steps[i])
        {
          EdgesMadeUp(steps[i]);
        }
      }
    }
  }

  lemma RawNodesOnce(p: Payload, steps: seq<Dict>, a: seq<Dict>, b: seq<Dict>)
    requires RawNodes(p, steps, a) && RawNodes(p, steps, b)
    ensures a == b
  {
    hide IsStepNode, IsLeadNode;
    if !FilledList(p.nodes) {
      MadeUpOnce(a[0], b[0], map[], p.leadAgentId);
      forall j | 0 < j < |a|
        ensures a[j] == b[j]
      {
        var step := steps[j - 1];
        StepNodeOnce(a[j], b[j], step);
      }
    }
  }

  lemma RawEdgesOnce(p: Payload, steps: seq<Dict>, a: seq<Dict>, b: seq<Dict>)
    requires RawEdges(p, steps, a) && RawEdges(p, steps, b)
    ensures a == b
  {
    hide IsStepEdge, IsVisualEdge;
    if !FilledList(p.edges) {
      var sources := if VisualItems(p).Some? then VisualItems(p).value else steps;
      forall i | 0 <= i < |sources|
        ensures a[i] == b[i]
      {
        MadeUpOnce(a[i], b[i], sources[i], "");
      }
    }
  }

  // The ids of the nodes, and whether one of them is a lead node.
  ghost function IdsOf(ns: seq<Dict>): set<string> {
    set n: Dict | n in ns && NodeId in n && n[NodeId].String? :: n[NodeId].s
  }

  ghost predicate SomeLead(ns: seq<Dict>) {
    exists n: Dict :: n in ns && NodeType in n && n[NodeType] == String("lead_agent")
  }

  // g is the graph of the payload: its raw nodes and edges, or those made up for its steps,
  // each written out.
  ghost predicate GraphOf(p: Payload, types: map<string, string>, steps: seq<Dict>, raws: seq<Dict>, links: seq<Dict>,
                          g: Graph)
  {
    && RawSteps(p, steps) && RawNodes(p, steps, raws) && RawEdges(p, steps, links)
    && NodesOfRaws(raws, types, g.nodes) && SomeLead(g.nodes)
    && EdgesOfRaws(links, IdsOf(g.nodes), g.edges)
  }

  lemma IdsMean(ns: seq<Dict>)
    ensures Named(ns, NodeId) == IdsOf(ns)
    ensures HasLead(ns) <==> SomeLead(ns)
  {
  }

  lemma ReadAsGraph(p: Payload, types: map<string, string>, steps: seq<Dict>, raws: seq<Dict>, links: seq<Dict>, g: Graph)
    requires GraphOf(p, types, steps, raws, links, g)
    ensures Normalized(p, Registry(VOCABULARY, types)) == Ok(g)
  {
    hide VOCABULARY, NodesOf, EdgesOf, NodeInputs, EdgeInputs, RawSteps, RawNodes, RawEdges, NodesOfRaws,
         EdgesOfRaws, HasLead, SomeLead, Named, IdsOf;
    StepsMean(p, steps);
    NodeInputsMean(p, steps);
    RawNodesOnce(p, steps, raws, Dicts(NodeInputs(p, steps)));
    EdgeInputsMean(p, steps);
    RawEdgesOnce(p, steps, links, Dicts(EdgeInputs(p, steps)));
    NodesMean(raws, types, g.nodes);
    IdsMean(g.nodes);
    EdgesReference(links, IdsOf(g.nodes), g.edges);
  }

  // Normalisation succeeds exactly for the payloads that have such a graph, and gives it.
  lemma NormalizationMeans(p: Payload, types: map<string, string>, g: Graph)
    ensures Normalized(p, Registry(VOCABULARY, types)) == Ok(g) <==>
            exists steps, raws, links :: GraphOf(p, types, steps, raws, links, g)
  {
    hide VOCABULARY, NodesOf, EdgesOf, NodeInputs, EdgeInputs, RawSteps, RawNodes, RawEdges, NodesOfRaws,
         EdgesOfRaws, HasLead, SomeLead, Named, IdsOf;
    if Normalized(p, Registry(VOCABULARY, types)) == Ok(g) {
      var steps := StepsOf(p).value;
      var raws, links := Dicts(NodeInputs(p, steps)), Dicts(EdgeInputs(p, steps));
      StepsMean(p, steps);
      NodeInputsMean(p, steps);
      EdgeInputsMean(p, steps);
      NodesMean(raws, types, g.nodes);
      IdsMean(g.nodes);
      EdgesReference(links, IdsOf(g.nodes), g.edges);
      assert GraphOf(p, types, steps, raws, links, g);
    }
    if exists steps, raws, links :: GraphOf(p, types, steps, raws, links, g) {
      var steps, raws, links :| GraphOf(p, types, steps, raws, links, g);
      ReadAsGraph(p, types, steps, raws, links, g);
    }
  }
}
