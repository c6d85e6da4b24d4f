// Concrete payloads on which the pipeline does not keep the graph: two edges with one
// name, a lead node of another id, and a list that hides the edges of the steps.
module GraphExamples {
  import opened Outcomes
  import opened Json
  import opened WorkflowGraph
  import opened WorkflowGraphLaws
  import opened WorkflowEvaluators
  import opened ManifestCompiler
  import Routing = WorkflowRouting
  import Deployed = DeployedGraph

  // --- Plain graphs ------------------------------------------------------------------

  function PlainNode(id: string, agent: string, nodeType: string): Dict {
    map[NodeId := String(id), AgentId := String(agent), NodeType := String(nodeType),
        ActivationPolicy := String("always"), ActivationStage := String("routed"),
        Capabilities := Strings([]), AllowedTools := Strings([]),
        DataScope := Object(map[], "{}"), SideEffectLevel := String("none")]
  }

  function PlainEdge(id: string, source: string, target: string): Dict {
    map[EdgeId := String(id), FromNodeId := String(source), ToNodeId := String(target), Conditions := Object(map[], "{}")]
  }

  function PlainPayload(lead: string, nodes: seq<Dict>, edges: seq<Dict>): Payload {
    Payload(Listed(nodes), Listed(edges), None, Null, lead)
  }

  // A word that strip() leaves alone.
  predicate Word(s: string) {
    s != "" && Stripped(s)
  }

  lemma WordsListed()
    ensures "always" in VOCABULARY.policies && "routed" in VOCABULARY.stages
    ensures LEAD_AGENT in VOCABULARY.nodeTypes && "task_agent" in VOCABULARY.nodeTypes
  {
  }

  lemma PlainNodeNormal(id: string, agent: string, nodeType: string, types: map<string, string>)
    requires Word(id) && Word(agent) && agent in types && types[agent] == nodeType && nodeType in VOCABULARY.nodeTypes
    ensures NormalNode(PlainNode(id, agent, nodeType), Registry(VOCABULARY, types))
  {
    hide VOCABULARY, Sound, NormalType;
    VocabularySound();
    WordsListed();
    WordsFixed(VOCABULARY, nodeType);
    ListValueIsTextList(Null);
    assert Strings([]).items == [] && Texts([]) == [];
    assert ListValue(Strings([])) == Strings([]);
  }

  lemma PlainEdgeNormal(id: string, source: string, target: string, ids: set<string>)
    requires id != "" && Word(source) && Word(target) && source != target && target != LEAD_NODE_ID
    requires source in ids && target in ids
    ensures NormalEdge(PlainEdge(id, source, target), ids)
  {
  }

  // A graph in normal form is left as it is.
  lemma NormalFormStays(lead: string, nodes: seq<Dict>, edges: seq<Dict>, reg: Registry)
    requires Sound(reg.words) && NormalGraph(Graph(nodes, edges), reg)
    ensures Normalized(PlainPayload(lead, nodes, edges), reg) == Ok(Graph(nodes, edges))
  {
    hide NodesOf, EdgesOf, NormalNode, NormalEdge, Sound;
    var p := PlainPayload(lead, nodes, edges);
    DictsOfListed(nodes);
    DictsOfListed(edges);
    NormalNodesFixed(nodes, reg);
    NormalEdgesFixed(edges, Named(nodes, NodeId));
    var n :| n in nodes && IsLead(n);
    assert NonEmptyList(p.nodes);
    if edges == [] {
      assert FallbackEdges(p, []) == [];
      assert Dicts(Listed(FallbackEdges(p, [])).items) == edges;
    }
  }

  lemma PlainCompiles(g: Graph, reg: Registry, metadata: Dict) returns (m: Manifest)
    requires NormalGraph(g, reg)
    requires forall n :: n in g.nodes ==> Runtime !in n && Metadata !in n
    ensures Compile(true, g, metadata, false) == Ok(m) && m.metadata == metadata
  {
    hide NormalGraph, NodeValid, EdgeValid, NodeRecord, EdgeRecord;
    Deployed.NormalGraphCompiles(g, reg, true, metadata, false);
    m := Compile(true, g, metadata, false).value;
  }

  // --- Two edges with one name ---------------------------------------------------------

  // Agent "l" leads, agent "t" has a type of its own.
  const TYPES: map<string, string> := map["l" := LEAD_AGENT, "t" := "task_agent"]

  function TaskAt(id: string): Dict {
    PlainNode(id, "t", "task_agent")
  }

  function LeadAt(id: string): Dict {
    PlainNode(id, "l", LEAD_AGENT)
  }

  lemma AgentsAreWords()
    ensures Word("l") && Word("t")
    ensures "l" in TYPES && TYPES["l"] == LEAD_AGENT && "t" in TYPES && TYPES["t"] == "task_agent"
    ensures LEAD_AGENT != "task_agent"
  {
  }

  lemma TaskNormal(id: string)
    requires Word(id)
    ensures NormalNode(TaskAt(id), Registry(VOCABULARY, TYPES)) && Get(TaskAt(id), NodeId) == String(id)
    ensures Runtime !in TaskAt(id) && Metadata !in TaskAt(id) && !IsLead(TaskAt(id))
  {
    hide VOCABULARY, NormalNode, Word;
    WordsListed();
    AgentsAreWords();
    PlainNodeNormal(id, "t", "task_agent", TYPES);
  }

  lemma LeadNormal(id: string)
    requires Word(id)
    ensures NormalNode(LeadAt(id), Registry(VOCABULARY, TYPES)) && Get(LeadAt(id), NodeId) == String(id)
    ensures Runtime !in LeadAt(id) && Metadata !in LeadAt(id) && IsLead(LeadAt(id))
  {
    hide VOCABULARY, NormalNode, Word;
    WordsListed();
    AgentsAreWords();
    PlainNodeNormal(id, "l", LEAD_AGENT, TYPES);
  }

  lemma OnlyAgents(agent: string)
    ensures agent in TYPES ==> TYPES[agent] == LEAD_AGENT || TYPES[agent] == "task_agent"
    ensures agent in TYPES <==> agent in {"l", "t"}
  {
  }

  lemma NoEmptyType()
    ensures NormalType(VOCABULARY, "") !in VOCABULARY.nodeTypes
  {
    assert Strip("") == "";
  }

  // The agents of a normal node are registered, and here under canonical types.
  lemma AgentRegistered(n: Dict)
    requires NormalNode(n, Registry(VOCABULARY, TYPES))
    ensures AgentId in n && n[AgentId].String? && n[AgentId].s in TYPES && TextOf(n, AgentId) == n[AgentId].s
    ensures Registered(Registry(VOCABULARY, TYPES), n[AgentId].s)
            == NormalType(VOCABULARY, Registered(Registry(VOCABULARY, TYPES), n[AgentId].s))
  {
    hide VOCABULARY, Strip, Sound, TYPES;
    VocabularySound();
    WordsListed();
    AgentsAreWords();
    OnlyAgents(n[AgentId].s);
    NoEmptyType();
    WordsFixed(VOCABULARY, LEAD_AGENT);
    WordsFixed(VOCABULARY, "task_agent");
  }

  const ASSIGNED := Assignments(TYPES, {"l", "t"})

  // A normal graph with an edge from the lead passes the evaluators.
  lemma PlainCertifiable(g: Graph, e: Dict)
    requires NormalGraph(g, Registry(VOCABULARY, TYPES)) && e in g.edges && LeavesLead(e)
    ensures Certifiable(g, ASSIGNED, VOCABULARY)
  {
    hide VOCABULARY, Sound, NormalNode, NormalEdges, NormalType, LeavesLead, Certifiable, TYPES;
    VocabularySound();
    forall n: Dict | n in g.nodes
      ensures AgentId in n && n[AgentId].String? && TextOf(n, AgentId) in ASSIGNED.certified
      ensures Registered(Registry(VOCABULARY, TYPES), n[AgentId].s)
              == NormalType(VOCABULARY, Registered(Registry(VOCABULARY, TYPES), n[AgentId].s))
    {
      AgentRegistered(n);
      OnlyAgents(n[AgentId].s);
    }
    NormalGraphCertifiable(g, Registry(VOCABULARY, TYPES), ASSIGNED);
  }

  lemma EdgeFromLead(id: string, target: string)
    ensures LeavesLead(PlainEdge(id, LEAD_NODE_ID, target))
  {
  }

  function ArrowNodes(): seq<Dict> {
    [LeadAt(LEAD_NODE_ID), TaskAt("a"), TaskAt("a->b"), TaskAt("b->c"), TaskAt("c")]
  }

  function ArrowEdges(): seq<Dict> {
    [PlainEdge("1", LEAD_NODE_ID, "a"), PlainEdge("2", "a->b", "c"), PlainEdge("3", "a", "b->c")]
  }

  lemma ArrowNodesNormal()
    ensures NormalNodes(ArrowNodes(), Registry(VOCABULARY, TYPES)) && HasLead(ArrowNodes())
    ensures {LEAD_NODE_ID, "a", "a->b", "b->c", "c"} <= Named(ArrowNodes(), NodeId)
    ensures forall n :: n in ArrowNodes() ==> Runtime !in n && Metadata !in n
  {
    hide VOCABULARY, NormalNode, LeadAt, TaskAt, TYPES, IsLead;
    LeadNormal(LEAD_NODE_ID);
    TaskNormal("a");
    TaskNormal("a->b");
    TaskNormal("b->c");
    TaskNormal("c");
    var ns := ArrowNodes();
    assert ns[0] in ns && ns[1] in ns && ns[2] in ns && ns[3] in ns && ns[4] in ns;
  }

  lemma ArrowEdgesNormal(ids: set<string>)
    requires {LEAD_NODE_ID, "a", "a->b", "b->c", "c"} <= ids
    ensures NormalEdges(ArrowEdges(), ids)
  {
    PlainEdgeNormal("1", LEAD_NODE_ID, "a", ids);
    PlainEdgeNormal("2", "a->b", "c", ids);
    PlainEdgeNormal("3", "a", "b->c", ids);
  }

  lemma ArrowGraphNormal()
    ensures NormalGraph(Graph(ArrowNodes(), ArrowEdges()), Registry(VOCABULARY, TYPES))
  {
    hide ArrowNodes, ArrowEdges, NormalNodes, NormalEdges, VOCABULARY;
    ArrowNodesNormal();
    ArrowEdgesNormal(Named(ArrowNodes(), NodeId));
  }

  // The edges from "a->b" to "c" and from "a" to "b->c" have one name.
  lemma OneName()
    ensures Routing.LinkName("a->b", "c") == Routing.LinkName("a", "b->c")
    ensures Routing.LinkName(LEAD_NODE_ID, "a") != Routing.LinkName("a->b", "c")
  {
    assert Routing.LinkName("a->b", "c") == "a->b->c";
    assert Routing.LinkName("a", "b->c") == "a->b->c";
    assert Routing.LinkName(LEAD_NODE_ID, "a")[0] == 'l';
  }

  lemma ArrowLinks()
    ensures var ls := Deployed.EdgeLinks(ArrowEdges());
            && |ls| == 3
            && ls[0].source == LEAD_NODE_ID && ls[0].target == "a"
            && ls[1].source == "a->b" && ls[1].target == "c"
            && ls[2].source == "a" && ls[2].target == "b->c"
  {
  }

  lemma NoLinks()
    ensures Routing.ByName([]) == []
  {
  }

  lemma FirstTwoByName(a: Routing.Link, b: Routing.Link, c: Routing.Link)
    requires Routing.NameOf(b) == Routing.NameOf(c) && Routing.NameOf(a) != Routing.NameOf(b)
    ensures Routing.ByName([a, b, c]) == [a, b]
  {
    hide Routing.NameOf, Routing.ByName;
    NoLinks();
    assert [] + [a] == [a] && [a] + [b] == [a, b] && [a, b] + [c] == [a, b, c];
    Routing.ByNameStep([], a);
    Routing.ByNameStep([a], b);
    Routing.ByNameStep([a, b], c);
  }

  lemma LeadOfArrowNodes()
    ensures Deployed.LeadIs(ArrowNodes(), LEAD_NODE_ID)
  {
    hide VOCABULARY, NormalNode, PlainNode, TYPES;
    LeadNormal(LEAD_NODE_ID);
    assert IsLead(ArrowNodes()[0]);
  }

  // This payload normalises to its own nodes and three edges and passes the evaluators; after
  // compilation and rebuild the engine has two connections: that from "a" to "b->c" is lost.
  lemma ArrowEdgeLost(metadata: Dict) returns (m: Manifest)
    ensures Normalized(PlainPayload("l", ArrowNodes(), ArrowEdges()), Registry(VOCABULARY, TYPES))
            == Ok(Graph(ArrowNodes(), ArrowEdges()))
    ensures |ArrowEdges()| == 3 && Certifiable(Graph(ArrowNodes(), ArrowEdges()), ASSIGNED, VOCABULARY)
    ensures Compile(true, Graph(ArrowNodes(), ArrowEdges()), metadata, false) == Ok(m)
    ensures var connections := Routing.Connections(Rebuilt(m), Routing.Steps(Rebuilt(m)));
            && |connections| == 2
            && connections[0].source == LEAD_NODE_ID && connections[0].target == "a"
            && connections[1].source == "a->b" && connections[1].target == "c"
  {
    hide ArrowNodes, NormalGraph, Normalized, VOCABULARY, Sound, Compile, Rebuilt, Routing.Connections, Routing.Steps,
         Routing.ByName, Routing.LinkName, Deployed.LeadIs, Deployed.EdgeLinks, PlainEdge, Certifiable, LeavesLead;
    var g, reg := Graph(ArrowNodes(), ArrowEdges()), Registry(VOCABULARY, TYPES);
    EdgeFromLead("1", "a");
    assert ArrowEdges()[0] in ArrowEdges();
    VocabularySound();
    ArrowGraphNormal();
    ArrowNodesNormal();
    NormalFormStays("l", ArrowNodes(), ArrowEdges(), reg);
    PlainCertifiable(g, ArrowEdges()[0]);
    m := PlainCompiles(g, reg, metadata);
    LeadOfArrowNodes();
    Deployed.DeployedConnections(g, reg, m, LEAD_NODE_ID);
    Deployed.AllSurvive(Deployed.EdgeLinks(ArrowEdges()));
    ArrowLinks();
    OneName();
    var ls := Deployed.EdgeLinks(ArrowEdges());
    assert ls == [ls[0], ls[1], ls[2]];
    FirstTwoByName(ls[0], ls[1], ls[2]);
  }

  // --- A lead node of another id ---------------------------------------------------------

  // The lead agent's node is "boss"; a task node is called "lead", so that the graph passes
  // the evaluators.
  function BossNodes(): seq<Dict> {
    [LeadAt("boss"), TaskAt(LEAD_NODE_ID), TaskAt("a")]
  }

  function BossEdges(): seq<Dict> {
    [PlainEdge("1", LEAD_NODE_ID, "a"), PlainEdge("2", "boss", "a")]
  }

  lemma BossEdgesUnique()
    ensures Unique(BossEdges(), EdgeId)
  {
  }

  lemma BossGraphNormal()
    ensures NormalGraph(Graph(BossNodes(), BossEdges()), Registry(VOCABULARY, TYPES))
    ensures Deployed.LeadIs(BossNodes(), "boss")
    ensures forall n :: n in BossNodes() ==> Runtime !in n && Metadata !in n
  {
    hide VOCABULARY, NormalNode, NormalEdge, PlainNode, PlainEdge, TYPES;
    LeadNormal("boss");
    TaskNormal(LEAD_NODE_ID);
    TaskNormal("a");
    var ns := BossNodes();
    assert ns[0] in ns && ns[1] in ns && ns[2] in ns;
    assert Named(ns, NodeId) >= {"boss", LEAD_NODE_ID, "a"};
    PlainEdgeNormal("1", LEAD_NODE_ID, "a", Named(ns, NodeId));
    PlainEdgeNormal("2", "boss", "a", Named(ns, NodeId));
    BossEdgesUnique();
    assert IsLead(ns[0]);
  }

  lemma BossSurviving()
    ensures var ls := Routing.ByName(Deployed.Surviving(Deployed.EdgeLinks(BossEdges()), "boss"));
            |ls| == 1 && ls[0].source == LEAD_NODE_ID && ls[0].target == "a"
  {
    var ls := Deployed.EdgeLinks(BossEdges());
    assert |ls| == 2 && ls[..1] == [ls[0]] && ls[..0] == [];
    assert ls[..1][..0] == [];
    assert Deployed.Surviving(ls[..0], "boss") == [];
    assert Deployed.Surviving(ls[..1], "boss") == [ls[0]];
    assert Deployed.Surviving(ls, "boss") == [ls[0]];
    assert [ls[0]][..0] == [];
    assert Routing.ByName([ls[0]]) == [ls[0]];
  }

  // The edge of the node "boss" is lost after compilation and rebuild.
  lemma BossEdgeLost(metadata: Dict) returns (m: Manifest)
    ensures Normalized(PlainPayload("l", BossNodes(), BossEdges()), Registry(VOCABULARY, TYPES)) == Ok(Graph(BossNodes(), BossEdges()))
    ensures |BossEdges()| == 2 && Certifiable(Graph(BossNodes(), BossEdges()), ASSIGNED, VOCABULARY)
    ensures Compile(true, Graph(BossNodes(), BossEdges()), metadata, false) == Ok(m)
    ensures var connections := Routing.Connections(Rebuilt(m), Routing.Steps(Rebuilt(m)));
            |connections| == 1 && connections[0].source == LEAD_NODE_ID && connections[0].target == "a"
  {
    hide BossNodes, NormalGraph, Normalized, VOCABULARY, Sound, Compile, Rebuilt, Routing.Connections, Routing.Steps,
         Routing.ByName, Routing.LinkName, Deployed.LeadIs, Deployed.Surviving, Deployed.EdgeLinks, PlainEdge, Certifiable, LeavesLead;
    var g, reg := Graph(BossNodes(), BossEdges()), Registry(VOCABULARY, TYPES);
    EdgeFromLead("1", "a");
    assert BossEdges()[0] in BossEdges();
    VocabularySound();
    BossGraphNormal();
    NormalFormStays("l", BossNodes(), BossEdges(), reg);
    PlainCertifiable(g, BossEdges()[0]);
    m := PlainCompiles(g, reg, metadata);
    Deployed.DeployedConnections(g, reg, m, "boss");
    BossSurviving();
  }

  // --- A list that hides the edges of the steps --------------------------------------------

  function StepA(): Dict {
    map[StepId := String("a"), AgentId := String("t")]
  }

  // The edges are a list of one null.
  function HidingPayload(): Payload {
    Payload(Listed([LeadAt(LEAD_NODE_ID), TaskAt("a")]), List([Null], "[None]"), Some(Listed([StepA()])), Null, "l")
  }

  lemma HidingNodesNormal()
    ensures NormalNodes([LeadAt(LEAD_NODE_ID), TaskAt("a")], Registry(VOCABULARY, TYPES)) && HasLead([LeadAt(LEAD_NODE_ID), TaskAt("a")])
  {
    hide VOCABULARY, NormalNode, PlainNode, TYPES;
    LeadNormal(LEAD_NODE_ID);
    TaskNormal("a");
    assert [LeadAt(LEAD_NODE_ID), TaskAt("a")][0] == LeadAt(LEAD_NODE_ID);
  }

  // Normalised once, this payload has no edges; normalised again it has one.
  lemma HiddenFallback()
    ensures var reg := Registry(VOCABULARY, TYPES);
            && Normalized(HidingPayload(), reg) == Ok(Graph([LeadAt(LEAD_NODE_ID), TaskAt("a")], []))
            && Normalized(WithGraph(HidingPayload(), Graph([LeadAt(LEAD_NODE_ID), TaskAt("a")], [])), reg)
               != Normalized(HidingPayload(), reg)
  {
    hide VOCABULARY, Sound, NormalNodes, PlainNode, TYPES, NodesOf, StepEdge;
    var nodes, reg := [LeadAt(LEAD_NODE_ID), TaskAt("a")], Registry(VOCABULARY, TYPES);
    var p := HidingPayload();
    VocabularySound();
    HidingNodesNormal();
    DictsOfListed(nodes);
    DictsOfListed([StepA()]);
    NormalNodesFixed(nodes, reg);
    assert [Null][..0] == [];
    assert Dicts(p.edges.items) == [];
    assert Normalized(p, reg) == Ok(Graph(nodes, []));
    assert |FallbackEdges(p, [StepA()])| == 1;
    NormalizeTwice(p, reg);
  }

  // --- Lists of dicts are always left alone the second time ---------------------------------

  lemma {:induction false} DictsOfDicts(items: seq<Value>)
    requires forall i :: 0 <= i < |items| ==> items[i].Object?
    ensures |Dicts(items)| == |items|
  {
    if |items| > 0 {
      DictsOfDicts(items[..|items| - 1]);
    }
  }

  // The API takes a list of dicts: normalising what it accepts twice is normalising it once.
  lemma DictsNormalizeOnce(p: Payload, reg: Registry)
    requires Sound(reg.words) && Normalized(p, reg).Ok?
    requires p.edges.List? ==> forall i :: 0 <= i < |p.edges.items| ==> p.edges.items[i].Object?
    ensures Normalized(WithGraph(p, Normalized(p, reg).value), reg) == Normalized(p, reg)
  {
    hide Normalized, Sound;
    NormalizeTwice(p, reg);
    if p.edges.List? {
      DictsOfDicts(p.edges.items);
    }
  }
}
