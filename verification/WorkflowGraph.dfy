// Normalisation of workflow graphs (intelliguard/workflows/graph.py).
module WorkflowGraph {
  import opened Outcomes
  import opened Json

  const LEAD_NODE_ID := "lead"
  const LEAD_AGENT := "lead_agent"

  // The vocabulary of graphs: node types with their legacy names, activation policies and
  // stages, and the policy and stage a node type has by default.
  datatype Vocabulary = Vocabulary(
    nodeTypes: set<string>,
    legacy: map<string, string>,
    policies: set<string>,
    stages: set<string>,
    defaultPolicy: map<string, string>,
    defaultStage: map<string, string>)

  // Node types are words that are not legacy names, and every default is one of the words.
  ghost predicate Sound(v: Vocabulary) {
    && LEAD_AGENT in v.nodeTypes
    && (forall t :: t in v.nodeTypes ==> t != "" && Stripped(t) && t !in v.legacy && t in v.defaultPolicy && t in v.defaultStage)
    && "" !in v.policies && "" !in v.stages
    && (forall t :: t in v.nodeTypes && t in v.defaultPolicy ==> v.defaultPolicy[t] in v.policies)
    && (forall t :: t in v.nodeTypes && t in v.defaultStage ==> v.defaultStage[t] in v.stages)
  }

  const VOCABULARY: Vocabulary := Vocabulary(
    {"gate_agent", LEAD_AGENT, "task_agent", "review_agent", "approval_agent", "terminal_agent"},
    map["lead_orchestrator" := LEAD_AGENT, "sub_agent" := "task_agent", "specialist_agent" := "task_agent",
        "support_assistant" := "task_agent", "custom_agent" := "task_agent", "cli_agent" := "task_agent"],
    {"always", "on_risk", "conditional", "human_required"},
    {"pre_tool", "post_tool", "pre_route", "routed", "final_review"},
    map[LEAD_AGENT := "always", "gate_agent" := "always", "review_agent" := "on_risk",
        "approval_agent" := "human_required", "task_agent" := "conditional", "terminal_agent" := "conditional"],
    map[LEAD_AGENT := "pre_route", "gate_agent" := "pre_route", "review_agent" := "final_review",
        "approval_agent" := "final_review", "terminal_agent" := "final_review", "task_agent" := "routed"])

  lemma NodeTypesListed(t: string)
    requires t in VOCABULARY.nodeTypes
    ensures t != "" && Stripped(t)
    ensures t in VOCABULARY.defaultPolicy && t in VOCABULARY.defaultStage
  {
  }

  lemma LegacyNamesListed(t: string)
    requires t in VOCABULARY.legacy
    ensures t !in VOCABULARY.nodeTypes
  {
  }

  lemma DefaultsListed(t: string)
    ensures t in VOCABULARY.defaultPolicy ==> VOCABULARY.defaultPolicy[t] in VOCABULARY.policies
    ensures t in VOCABULARY.defaultStage ==> VOCABULARY.defaultStage[t] in VOCABULARY.stages
  {
  }

  lemma VocabularySound()
    ensures Sound(VOCABULARY)
  {
    forall t | t in VOCABULARY.nodeTypes
      ensures t != "" && Stripped(t) && t !in VOCABULARY.legacy && t in VOCABULARY.defaultPolicy && t in VOCABULARY.defaultStage
      ensures VOCABULARY.defaultPolicy[t] in VOCABULARY.policies && VOCABULARY.defaultStage[t] in VOCABULARY.stages
    {
      NodeTypesListed(t);
      DefaultsListed(t);
      if t in VOCABULARY.legacy {
        LegacyNamesListed(t);
      }
    }
  }

  // What normalisation knows besides the payload; the code's vocabulary is VOCABULARY.
  datatype Registry = Registry(words: Vocabulary, types: map<string, string>)

  datatype GraphError =
    | StepsNotIterable
    | MissingId
    | DuplicateNode
    | UnsupportedType
    | TypeMismatch
    | BadEnum
    | NoLead
    | SameEnds
    | UnknownNode
    | IntoLead

  // What normalisation reads of a payload; the registered agent types come from the store.
  datatype Payload = Payload(nodes: Value, edges: Value, steps: Option<Value>, metadata: Value, leadAgentId: string)

  function NormalType(words: Vocabulary, t: string): string {
    if Strip(t) in words.legacy then words.legacy[Strip(t)] else Strip(t)
  }

  // The default of a node type; the code's two default functions are total on node types.
  function Default(table: map<string, string>, nodeType: string): string {
    if nodeType in table then table[nodeType] else ""
  }

  function Strings(ss: seq<string>): Value {
    List(seq(|ss|, i requires 0 <= i < |ss| => String(ss[i])), "[]")
  }

  // The items of a list as non-empty strings.
  function Texts(items: seq<Value>): (ss: seq<string>)
    ensures forall i :: 0 <= i < |ss| ==> ss[i] != ""
  {
    if |items| == 0 then []
    else Texts(items[..|items| - 1]) + (if Shown(items[|items| - 1]) == "" then [] else [Shown(items[|items| - 1])])
  }

  function ListValue(v: Value): Value {
    Strings(if v.List? then Texts(v.items) else [])
  }

  // str(raw.get(k) or raw.get(k') or "").strip()
  function IdOf(raw: Dict, k: Key, k': Key): string {
    Strip(Shown(Or(Or(Get(raw, k), Get(raw, k')), String(""))))
  }

  function Registered(reg: Registry, agent: string): string {
    if agent in reg.types then reg.types[agent] else ""
  }

  // --- Nodes ----------------------------------------------------------------------

  function LeadNode(leadAgentId: string): Dict {
    map[NodeId := String(LEAD_NODE_ID), AgentId := String(leadAgentId), NodeType := String(LEAD_AGENT),
        ActivationPolicy := String("always"), ActivationStage := String("pre_route"),
        Capabilities := Strings(["route_request", "coordinate_workflow"]), AllowedTools := Strings([]),
        DataScope := Object(map[], "{}"), SideEffectLevel := String("none")]
  }

  function NodeFromStep(step: Dict): Dict {
    step[NodeId := Or(Get(step, StepId), Get(step, AgentId))]
        [NodeType := Get(step, NodeType)]
        [ActivationPolicy := Or(Get(step, ActivationPolicy), String("conditional"))]
        [ActivationStage := Or(Get(step, ActivationStage), String("routed"))]
        [Capabilities := Or(Get(step, Capabilities), List([Or(Or(Get(step, Task), Get(step, Label)), String(""))], "[]"))]
        [AllowedTools := List(if Truthy(Get(step, ToolName)) then [Get(step, ToolName)] else [], "[]")]
        [DataScope := Or(Get(step, DataScope), Object(map[], "{}"))]
        [SideEffectLevel := Or(Get(step, SideEffectLevel), String("read_only"))]
  }

  function NodesFromSteps(steps: seq<Dict>): seq<Dict> {
    seq(|steps|, i requires 0 <= i < |steps| => NodeFromStep(steps[i]))
  }

  predicate NonEmptyList(v: Value) {
    v.List? && |v.items| > 0
  }

  function NodeInputs(p: Payload, steps: seq<Dict>): seq<Value> {
    if NonEmptyList(p.nodes) then p.nodes.items
    else Listed([LeadNode(p.leadAgentId)] + NodesFromSteps(steps)).items
  }

  function NodeIdOf(raw: Dict): string {
    IdOf(raw, NodeId, StepId)
  }

  function AgentIdOf(raw: Dict): string {
    IdOf(raw, AgentId, AgentId)
  }

  // The type the agent of a node is registered with, and the type the node claims.
  function RegisteredType(raw: Dict, reg: Registry): string {
    NormalType(reg.words, Registered(reg, AgentIdOf(raw)))
  }

  function ClaimedType(raw: Dict, reg: Registry): string {
    NormalType(reg.words, Shown(Or(Get(raw, NodeType), String(RegisteredType(raw, reg)))))
  }

  function PolicyOf(raw: Dict, reg: Registry): string {
    Shown(Or(Get(raw, ActivationPolicy), String(Default(reg.words.defaultPolicy, ClaimedType(raw, reg)))))
  }

  function StageOf(raw: Dict, reg: Registry): string {
    Shown(Or(Get(raw, ActivationStage), String(Default(reg.words.defaultStage, ClaimedType(raw, reg)))))
  }

  // v if it is a dict, and otherwise {}
  function ObjectOr(v: Value): Value {
    if v.Object? then v else Object(map[], "{}")
  }

  // The raw node with the fields the loop writes.
  function Filled(raw: Dict, reg: Registry): Dict {
    raw[NodeId := String(NodeIdOf(raw))]
       [AgentId := String(AgentIdOf(raw))]
       [NodeType := String(ClaimedType(raw, reg))]
       [ActivationPolicy := String(PolicyOf(raw, reg))]
       [ActivationStage := String(StageOf(raw, reg))]
       [Capabilities := ListValue(Get(raw, Capabilities))]
       [AllowedTools := ListValue(Get(raw, AllowedTools))]
       [DataScope := ObjectOr(Get(raw, DataScope))]
       [SideEffectLevel := String(Shown(Or(Get(raw, SideEffectLevel), String("read_only"))))]
  }

  // One round of the node loop: the node that is appended, given the ids seen so far.
  function NodeOf(raw: Dict, seen: set<string>, reg: Registry): Result<Dict, GraphError> {
    if NodeIdOf(raw) == "" || AgentIdOf(raw) == "" then Err(MissingId)
    else if NodeIdOf(raw) in seen then Err(DuplicateNode)
    else if RegisteredType(raw, reg) !in reg.words.nodeTypes then Err(UnsupportedType)
    else if ClaimedType(raw, reg) !in reg.words.nodeTypes then Err(UnsupportedType)
    else if ClaimedType(raw, reg) != RegisteredType(raw, reg) then Err(TypeMismatch)
    else if PolicyOf(raw, reg) !in reg.words.policies then Err(BadEnum)
    else if StageOf(raw, reg) !in reg.words.stages then Err(BadEnum)
    else Ok(Filled(raw, reg))
  }

  // The strings under a key of dicts.
  function Named(ds: seq<Dict>, k: Key): set<string> {
    set d | d in ds && Get(d, k).String? :: Get(d, k).s
  }

  function NodesOf(raws: seq<Dict>, reg: Registry): Result<seq<Dict>, GraphError> {
    if |raws| == 0 then Ok([])
    else
      var nodes :- NodesOf(raws[..|raws| - 1], reg);
      var node :- NodeOf(raws[|raws| - 1], Named(nodes, NodeId), reg);
      Ok(nodes + [node])
  }

  predicate IsLead(n: Dict) {
    Get(n, NodeType) == String(LEAD_AGENT)
  }

  predicate HasLead(nodes: seq<Dict>) {
    exists n :: n in nodes && IsLead(n)
  }

  lemma NodeIsNamed(raw: Dict, seen: set<string>, reg: Registry)
    ensures var node := NodeOf(raw, seen, reg);
            node.Ok? ==> NodeId in node.value && node.value[NodeId].String? && node.value[NodeId].s !in seen
  {
    hide Strip;
  }

  lemma NodesOfStep(raws: seq<Dict>, raw: Dict, reg: Registry)
    requires NodesOf(raws, reg).Ok?
    ensures NodesOf(raws + [raw], reg) ==
            match NodeOf(raw, Named(NodesOf(raws, reg).value, NodeId), reg)
            case Err(e) => Err(e)
            case Ok(n) => Ok(NodesOf(raws, reg).value + [n])
  {
    assert (raws + [raw])[..|raws|] == raws;
  }

  lemma NamedStep(ds: seq<Dict>, d: Dict, k: Key)
    ensures Named(ds + [d], k) == Named(ds, k) + (if Get(d, k).String? then {Get(d, k).s} else {})
  {
  }

  // What one round of the node loop adds.
  lemma NodeAdded(raws: seq<Dict>, raw: Dict, nodes: seq<Dict>, reg: Registry)
    requires NodesOf(raws, reg) == Ok(nodes)
    ensures match NodeOf(raw, Named(nodes, NodeId), reg)
            case Err(e) => NodesOf(raws + [raw], reg) == Err(e)
            case Ok(node) =>
              && NodesOf(raws + [raw], reg) == Ok(nodes + [node])
              && NodeId in node && node[NodeId].String?
              && Named(nodes + [node], NodeId) == Named(nodes, NodeId) + {node[NodeId].s}
  {
    NodesOfStep(raws, raw, reg);
    NodeIsNamed(raw, Named(nodes, NodeId), reg);
    if NodeOf(raw, Named(nodes, NodeId), reg).Ok? {
      NamedStep(nodes, NodeOf(raw, Named(nodes, NodeId), reg).value, NodeId);
    }
  }

  lemma {:induction false} NodesFailOnward(raws: seq<Dict>, more: seq<Dict>, reg: Registry)
    requires raws <= more && NodesOf(raws, reg).Err?
    ensures NodesOf(more, reg) == NodesOf(raws, reg)
    decreases |more|
  {
    if |raws| < |more| {
      NodesFailOnward(raws, more[..|more| - 1], reg);
    } else {
      assert raws == more;
    }
  }

  // The node loop over the entries that are dicts; the others are skipped.
  method NormalizeNodes(raws: seq<Dict>, reg: Registry) returns (r: Result<seq<Dict>, GraphError>)
    ensures r == match NodesOf(raws, reg)
                 case Err(e) => Err(e)
                 case Ok(ns) => if HasLead(ns) then Ok(ns) else Err(NoLead)
  {
    var seen: set<string>, nodes: seq<Dict> := {}, [];
    var i := 0;
    while i < |raws|
      invariant 0 <= i <= |raws|
      invariant NodesOf(raws[..i], reg) == Ok(nodes)
      invariant seen == Named(nodes, NodeId)
    {
      NodeAdded(raws[..i], raws[i], nodes, reg);
      assert raws[..i + 1] == raws[..i] + [raws[i]];
      var node := NodeOf(raws[i], seen, reg);
      if node.Err? {
        NodesFailOnward(raws[..i + 1], raws, reg);
        return Err(node.error);
      }
      nodes := nodes + [node.value];
      seen := seen + {node.value[NodeId].s};
      i := i + 1;
    }
    assert raws[..i] == raws;
    r := if HasLead(nodes) then Ok(nodes) else Err(NoLead);
  }

  // --- Edges ------------------------------------------------------------------------

  function VisualEdge(item: Dict): Dict {
    map[EdgeId := String(Shown(Get(item, From)) + "->" + Shown(Get(item, To))),
        FromNodeId := Get(item, From),
        ToNodeId := Get(item, To),
        Conditions := Or(Get(item, Conditions), Object(map[], "{}"))]
  }

  function StepEdge(step: Dict): Dict {
    var target := Or(Get(step, StepId), Get(step, AgentId));
    map[EdgeId := String(LEAD_NODE_ID + "->" + Shown(target)),
        FromNodeId := String(LEAD_NODE_ID),
        ToNodeId := target,
        Conditions := Object(map[], "{}")]
  }

  // What the edge loop falls back on when the payload has no edges.
  function FallbackEdges(p: Payload, steps: seq<Dict>): seq<Dict> {
    var visual := Get(DictOrEmpty(p.metadata), VisualConnections);
    if visual.List? then
      var items := Dicts(visual.items);
      seq(|items|, i requires 0 <= i < |items| => VisualEdge(items[i]))
    else
      seq(|steps|, i requires 0 <= i < |steps| => StepEdge(steps[i]))
  }

  function EdgeInputs(p: Payload, steps: seq<Dict>): seq<Value> {
    if NonEmptyList(p.edges) then p.edges.items else Listed(FallbackEdges(p, steps)).items
  }

  function SourceOf(raw: Dict): string {
    IdOf(raw, FromNodeId, From)
  }

  function TargetOf(raw: Dict): string {
    IdOf(raw, ToNodeId, To)
  }

  function EdgeIdOf(raw: Dict): string {
    Shown(Or(Get(raw, EdgeId), String(SourceOf(raw) + "->" + TargetOf(raw))))
  }

  // The raw edge with the fields the loop writes.
  function Joined(raw: Dict): Dict {
    raw[EdgeId := String(EdgeIdOf(raw))]
       [FromNodeId := String(SourceOf(raw))]
       [ToNodeId := String(TargetOf(raw))]
       [Conditions := ObjectOr(Get(raw, Conditions))]
  }

  // One round of the edge loop: nothing when the edge id was seen.
  function EdgeOf(raw: Dict, seen: set<string>, ids: set<string>): Result<Option<Dict>, GraphError> {
    if SourceOf(raw) == "" || TargetOf(raw) == "" || SourceOf(raw) == TargetOf(raw) then Err(SameEnds)
    else if SourceOf(raw) !in ids || TargetOf(raw) !in ids then Err(UnknownNode)
    else if TargetOf(raw) == LEAD_NODE_ID then Err(IntoLead)
    else if EdgeIdOf(raw) in seen then Ok(None)
    else Ok(Some(Joined(raw)))
  }

  function Appended<T>(xs: seq<T>, x: Option<T>): seq<T> {
    if x.Some? then xs + [x.value] else xs
  }

  function EdgesOf(raws: seq<Dict>, ids: set<string>): Result<seq<Dict>, GraphError> {
    if |raws| == 0 then Ok([])
    else
      var edges :- EdgesOf(raws[..|raws| - 1], ids);
      var edge :- EdgeOf(raws[|raws| - 1], Named(edges, EdgeId), ids);
      Ok(Appended(edges, edge))
  }

  lemma EdgeIsNamed(raw: Dict, seen: set<string>, ids: set<string>)
    ensures var edge := EdgeOf(raw, seen, ids);
            edge.Ok? && edge.value.Some? ==>
              EdgeId in edge.value.value && edge.value.value[EdgeId].String? && edge.value.value[EdgeId].s !in seen
  {
  }

  lemma EdgesOfStep(raws: seq<Dict>, raw: Dict, ids: set<string>)
    requires EdgesOf(raws, ids).Ok?
    ensures EdgesOf(raws + [raw], ids) ==
            match EdgeOf(raw, Named(EdgesOf(raws, ids).value, EdgeId), ids)
            case Err(e) => Err(e)
            case Ok(edge) => Ok(Appended(EdgesOf(raws, ids).value, edge))
  {
    assert (raws + [raw])[..|raws|] == raws;
  }

  // What one round of the edge loop adds.
  lemma EdgeAdded(raws: seq<Dict>, raw: Dict, edges: seq<Dict>, ids: set<string>)
    requires EdgesOf(raws, ids) == Ok(edges)
    ensures match EdgeOf(raw, Named(edges, EdgeId), ids)
            case Err(e) => EdgesOf(raws + [raw], ids) == Err(e)
            case Ok(None) => EdgesOf(raws + [raw], ids) == Ok(edges)
            case Ok(Some(edge)) =>
              && EdgesOf(raws + [raw], ids) == Ok(edges + [edge])
              && EdgeId in edge && edge[EdgeId].String?
              && Named(edges + [edge], EdgeId) == Named(edges, EdgeId) + {edge[EdgeId].s}
  {
    EdgesOfStep(raws, raw, ids);
    EdgeIsNamed(raw, Named(edges, EdgeId), ids);
    var edge := EdgeOf(raw, Named(edges, EdgeId), ids);
    if edge.Ok? && edge.value.Some? {
      NamedStep(edges, edge.value.value, EdgeId);
    }
  }

  lemma {:induction false} EdgesFailOnward(raws: seq<Dict>, more: seq<Dict>, ids: set<string>)
    requires raws <= more && EdgesOf(raws, ids).Err?
    ensures EdgesOf(more, ids) == EdgesOf(raws, ids)
    decreases |more|
  {
    if |raws| < |more| {
      EdgesFailOnward(raws, more[..|more| - 1], ids);
    } else {
      assert raws == more;
    }
  }

  method NormalizeEdges(raws: seq<Dict>, nodes: seq<Dict>) returns (r: Result<seq<Dict>, GraphError>)
    ensures r == EdgesOf(raws, Named(nodes, NodeId))
  {
    var ids := Named(nodes, NodeId);
    var seen: set<string>, edges: seq<Dict> := {}, [];
    var i := 0;
    while i < |raws|
      invariant 0 <= i <= |raws|
      invariant EdgesOf(raws[..i], ids) == Ok(edges)
      invariant seen == Named(edges, EdgeId)
    {
      EdgeAdded(raws[..i], raws[i], edges, ids);
      assert raws[..i + 1] == raws[..i] + [raws[i]];
      var edge := EdgeOf(raws[i], seen, ids);
      if edge.Err? {
        EdgesFailOnward(raws[..i + 1], raws, ids);
        return Err(edge.error);
      }
      if edge.value.Some? {
        edges := edges + [edge.value.value];
        seen := seen + {edge.value.value[EdgeId].s};
      }
      i := i + 1;
    }
    assert raws[..i] == raws;
    r := Ok(edges);
  }

  // --- The graph -----------------------------------------------------------------------

  datatype Graph = Graph(nodes: seq<Dict>, edges: seq<Dict>)

  // [step for step in payload.get("steps", []) if isinstance(step, dict)]; iterating a
  // string or a dict gives strings.
  function StepsOf(p: Payload): Result<seq<Dict>, GraphError> {
    if p.steps.None? || p.steps.value.String? || p.steps.value.Object? then Ok([])
    else if p.steps.value.List? then Ok(Dicts(p.steps.value.items))
    else Err(StepsNotIterable)
  }

  function Normalized(p: Payload, reg: Registry): Result<Graph, GraphError> {
    var steps :- StepsOf(p);
    var nodes :- NodesOf(Dicts(NodeInputs(p, steps)), reg);
    if !HasLead(nodes) then Err(NoLead)
    else
      var edges :- EdgesOf(Dicts(EdgeInputs(p, steps)), Named(nodes, NodeId));
      Ok(Graph(nodes, edges))
  }

  method NormalizeWorkflowGraph(p: Payload, reg: Registry) returns (r: Result<Graph, GraphError>)
    ensures r == Normalized(p, reg)
  {
    var steps := StepsOf(p);
    if steps.Err? {
      return Err(steps.error);
    }
    var nodes := NormalizeNodes(Dicts(NodeInputs(p, steps.value)), reg);
    if nodes.Err? {
      return Err(nodes.error);
    }
    var edges := NormalizeEdges(Dicts(EdgeInputs(p, steps.value)), nodes.value);
    r := if edges.Err? then Err(edges.error) else Ok(Graph(nodes.value, edges.value));
  }
}
