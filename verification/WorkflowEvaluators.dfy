// The workflow evaluators and the certification decision
// (intelliguard/evaluation/workflow_evaluators.py, evaluation/certification.py).
module WorkflowEvaluators {
  import opened Outcomes
  import opened Json
  import opened WorkflowGraph
  import opened WorkflowGraphLaws
  import Ref = GraphReference

  datatype Status = PASS | REVIEW | FAIL

  // What the evaluation reads of the store: the registered type of each agent, as
  // registered, and the agents that are certified.
  datatype Assignments = Assignments(agents: map<string, string>, certified: set<string>)

  // str(node.get(k) or "")
  function TextOf(d: Dict, k: Key): string {
    Shown(Or(Get(d, k), String("")))
  }

  predicate Governs(n: Dict) {
    Get(n, NodeType) in {String("review_agent"), String("approval_agent"), String("terminal_agent")}
  }

  // --- The checks, one node or edge at a time -----------------------------------------

  predicate TypeInvalid(n: Dict, words: Vocabulary) {
    TextOf(n, NodeType) !in words.nodeTypes
  }

  predicate AgentMissing(n: Dict, agents: map<string, string>) {
    TextOf(n, AgentId) !in agents || agents[TextOf(n, AgentId)] == ""
  }

  predicate TypeMismatched(n: Dict, agents: map<string, string>) {
    !AgentMissing(n, agents) && TextOf(n, NodeType) != agents[TextOf(n, AgentId)]
  }

  predicate EdgeInvalid(e: Dict, ids: set<string>) {
    var source, target := TextOf(e, FromNodeId), TextOf(e, ToNodeId);
    source == "" || target == "" || source == target || source !in ids || target !in ids || target == LEAD_NODE_ID
  }

  predicate LeavesLead(e: Dict) {
    TextOf(e, FromNodeId) == LEAD_NODE_ID
  }

  // {str(node.get("node_id")) for node in nodes if node.get("node_id")}
  function KnownIds(nodes: seq<Dict>): set<string> {
    set n | n in nodes && Truthy(Get(n, NodeId)) :: Shown(Get(n, NodeId))
  }

  // --- The checks -----------------------------------------------------------------------

  method CheckGraphDefined(nodes: seq<Dict>) returns (status: Status)
    ensures status == if HasLead(nodes) then PASS else FAIL
  {
    var leads := 0;
    for i := 0 to |nodes|
      invariant leads > 0 <==> HasLead(nodes[..i])
    {
      assert nodes[..i + 1] == nodes[..i] + [nodes[i]];
      if IsLead(nodes[i]) {
        leads := leads + 1;
      }
    }
    assert nodes[..|nodes|] == nodes;
    status := if |nodes| == 0 || leads == 0 then FAIL else PASS;
  }

  // The three lists of the check hold the offending nodes, and it passes if they are empty.
  method CheckNodeTypes(nodes: seq<Dict>, agents: map<string, string>, words: Vocabulary)
      returns (status: Status, invalid: seq<Dict>, missing: seq<Dict>, mismatches: seq<Dict>)
    ensures forall n :: n in invalid <==> n in nodes && TypeInvalid(n, words)
    ensures forall n :: n in missing <==> n in nodes && AgentMissing(n, agents)
    ensures forall n :: n in mismatches <==> n in nodes && TypeMismatched(n, agents)
    ensures status == if invalid == [] && missing == [] && mismatches == [] then PASS else FAIL
  {
    hide TextOf;
    invalid, missing, mismatches := [], [], [];
    for i := 0 to |nodes|
      invariant forall n :: n in invalid <==> n in nodes[..i] && TypeInvalid(n, words)
      invariant forall n :: n in missing <==> n in nodes[..i] && AgentMissing(n, agents)
      invariant forall n :: n in mismatches <==> n in nodes[..i] && TypeMismatched(n, agents)
    {
      var node := nodes[i];
      assert nodes[..i + 1] == nodes[..i] + [node];
      var agent, nodeType := TextOf(node, AgentId), TextOf(node, NodeType);
      if nodeType !in words.nodeTypes {
        invalid := invalid + [node];
      }
      if agent !in agents || agents[agent] == "" {
        missing := missing + [node];
      } else if nodeType != agents[agent] {
        mismatches := mismatches + [node];
      }
    }
    assert nodes[..|nodes|] == nodes;
    status := if invalid == [] && missing == [] && mismatches == [] then PASS else FAIL;
  }

  method CheckEdges(nodes: seq<Dict>, edges: seq<Dict>) returns (status: Status, invalid: seq<Dict>, fromLead: nat)
    ensures forall e :: e in invalid <==> e in edges && EdgeInvalid(e, KnownIds(nodes))
    ensures fromLead > 0 <==> exists e :: e in edges && LeavesLead(e)
    ensures status == if invalid != [] || (|nodes| > 1 && fromLead == 0) then FAIL else PASS
  {
    hide KnownIds, TextOf;
    var ids := KnownIds(nodes);
    invalid, fromLead := [], 0;
    for i := 0 to |edges|
      invariant forall e :: e in invalid <==> e in edges[..i] && EdgeInvalid(e, ids)
      invariant fromLead > 0 <==> exists e :: e in edges[..i] && LeavesLead(e)
    {
      var edge := edges[i];
      assert edges[..i + 1] == edges[..i] + [edge];
      var source, target := TextOf(edge, FromNodeId), TextOf(edge, ToNodeId);
      if source == LEAD_NODE_ID {
        assert edge in edges[..i + 1];
        fromLead := fromLead + 1;
      }
      if source == "" || target == "" || source == target || source !in ids || target !in ids || target == LEAD_NODE_ID {
        invalid := invalid + [edge];
      }
    }
    assert edges[..|edges|] == edges;
    status := if invalid != [] || (|nodes| > 1 && fromLead == 0) then FAIL else PASS;
  }

  // --- What the checks say ----------------------------------------------------------------

  ghost predicate TypesMatch(nodes: seq<Dict>, agents: map<string, string>, words: Vocabulary) {
    forall n :: n in nodes ==> !TypeInvalid(n, words) && !AgentMissing(n, agents) && !TypeMismatched(n, agents)
  }

  ghost predicate EdgesFit(nodes: seq<Dict>, edges: seq<Dict>) {
    && (forall e :: e in edges ==> !EdgeInvalid(e, KnownIds(nodes)))
    && (|nodes| > 1 ==> exists e :: e in edges && LeavesLead(e))
  }

  predicate AgentsCertified(nodes: seq<Dict>, certified: set<string>) {
    forall n :: n in nodes && TextOf(n, AgentId) != "" ==> TextOf(n, AgentId) in certified
  }

  // The graph passes every evaluator without a FAIL; the review-path check never fails.
  ghost predicate Certifiable(g: Graph, a: Assignments, words: Vocabulary) {
    && HasLead(g.nodes)
    && TypesMatch(g.nodes, a.agents, words)
    && EdgesFit(g.nodes, g.edges)
    && AgentsCertified(g.nodes, a.certified)
  }

  datatype Certification = CERTIFIED | FAILED

  // decide_certification over the five results.
  function Decide(results: seq<Status>): (d: Certification)
    ensures d == FAILED <==> FAIL in results
  {
    if |results| == 0 then CERTIFIED
    else if results[0] == FAIL then FAILED
    else Decide(results[1..])
  }

  lemma NoneIn(nodes: seq<Dict>, invalid: seq<Dict>, missing: seq<Dict>, mismatches: seq<Dict>,
               agents: map<string, string>, words: Vocabulary, status: Status)
    requires forall n :: n in invalid <==> n in nodes && TypeInvalid(n, words)
    requires forall n :: n in missing <==> n in nodes && AgentMissing(n, agents)
    requires forall n :: n in mismatches <==> n in nodes && TypeMismatched(n, agents)
    requires status == if invalid == [] && missing == [] && mismatches == [] then PASS else FAIL
    ensures status == PASS <==> TypesMatch(nodes, agents, words)
    ensures status != REVIEW
  {
    hide TypeInvalid, AgentMissing, TypeMismatched;
    assert |invalid| > 0 ==> invalid[0] in invalid;
    assert |missing| > 0 ==> missing[0] in missing;
    assert |mismatches| > 0 ==> mismatches[0] in mismatches;
  }

  lemma EdgesFitIff(nodes: seq<Dict>, edges: seq<Dict>, invalid: seq<Dict>, fromLead: nat, status: Status)
    requires forall e :: e in invalid <==> e in edges && EdgeInvalid(e, KnownIds(nodes))
    requires fromLead > 0 <==> exists e :: e in edges && LeavesLead(e)
    requires status == if invalid != [] || (|nodes| > 1 && fromLead == 0) then FAIL else PASS
    ensures status == PASS <==> EdgesFit(nodes, edges)
    ensures status != REVIEW
  {
    hide EdgeInvalid, LeavesLead;
    assert |invalid| > 0 ==> invalid[0] in invalid;
  }

  method Evaluate(g: Graph, a: Assignments, reviewRules: Dict, words: Vocabulary) returns (d: Certification)
    ensures d == CERTIFIED <==> Certifiable(g, a, words)
  {
    var defined := CheckGraphDefined(g.nodes);
    var types, invalid, missing, mismatches := CheckNodeTypes(g.nodes, a.agents, words);
    var handoffs, wrong, fromLead := CheckEdges(g.nodes, g.edges);
    NoneIn(g.nodes, invalid, missing, mismatches, a.agents, words, types);
    var certified := if AgentsCertified(g.nodes, a.certified) then PASS else FAIL;
    var exit := if (exists n :: n in g.nodes && Governs(n)) || reviewRules != map[] then PASS else REVIEW;
    EdgesFitIff(g.nodes, g.edges, wrong, fromLead, handoffs);
    d := Decide([defined, types, handoffs, certified, exit]);
    assert FAIL in [defined, types, handoffs, certified, exit] <==>
           defined == FAIL || types == FAIL || handoffs == FAIL || certified == FAIL;
  }

  // --- What certification asks for ---------------------------------------------------------

  // The node has a known type, and its agent is registered under that very type and
  // certified.
  ghost predicate NodeStands(n: Dict, a: Assignments) {
    var t, agent := Ref.TextAt(n, NodeType, ""), Ref.TextAt(n, AgentId, "");
    && Ref.KnownType(t)
    && agent in a.agents && a.agents[agent] == t
    && (agent != "" ==> agent in a.certified)
  }

  // The edge leads from one node to another, and not into the lead node.
  ghost predicate EdgeStands(e: Dict, nodes: seq<Dict>) {
    var source, target := Ref.TextAt(e, FromNodeId, ""), Ref.TextAt(e, ToNodeId, "");
    && source != "" && target != "" && source != target && target != "lead"
    && (exists n :: n in nodes && Ref.Has(n, NodeId) && Ref.TextOf(n[NodeId]) == source)
    && (exists n :: n in nodes && Ref.Has(n, NodeId) && Ref.TextOf(n[NodeId]) == target)
  }

  lemma TextMeans(d: Dict, k: Key)
    ensures TextOf(d, k) == Ref.TextAt(d, k, "")
  {
    hide Ref.TextAt, Or, Get;
    Ref.TextMeans(d, k, "");
  }

  lemma NoType()
    ensures !Ref.KnownType("")
  {
  }

  lemma NodeStandsIff(n: Dict, a: Assignments)
    ensures NodeStands(n, a) <==>
            && !TypeInvalid(n, VOCABULARY) && !AgentMissing(n, a.agents) && !TypeMismatched(n, a.agents)
            && (TextOf(n, AgentId) != "" ==> TextOf(n, AgentId) in a.certified)
  {
    hide TextOf, Ref.TextAt, VOCABULARY, Ref.KnownType;
    TextMeans(n, NodeType);
    TextMeans(n, AgentId);
    Ref.WordsMean(TextOf(n, NodeType));
    assert !Ref.KnownType("") by { NoType(); }
  }

  lemma KnownEntry(n: Dict)
    ensures Truthy(Get(n, NodeId)) <==> Ref.Has(n, NodeId)
    ensures NodeId in n ==> Shown(Get(n, NodeId)) == Ref.TextOf(n[NodeId])
    ensures Ref.Has(n, NodeId) ==> NodeId in n
  {
    Ref.HasMeans(n, NodeId);
    Ref.EmptyIff(Get(n, NodeId));
  }

  lemma KnownIdsAre(nodes: seq<Dict>, id: string)
    ensures id in KnownIds(nodes) <==> exists n :: n in nodes && Ref.Has(n, NodeId) && Ref.TextOf(n[NodeId]) == id
  {
    hide Ref.Has, Ref.TextOf, Truthy, Shown;
    forall n: Dict | n in nodes
      ensures Truthy(Get(n, NodeId)) <==> Ref.Has(n, NodeId)
      ensures NodeId in n ==> Shown(Get(n, NodeId)) == Ref.TextOf(n[NodeId])
      ensures Ref.Has(n, NodeId) ==> NodeId in n
    {
      KnownEntry(n);
    }
  }

  lemma EdgeStandsIff(e: Dict, nodes: seq<Dict>)
    ensures EdgeStands(e, nodes) <==> !EdgeInvalid(e, KnownIds(nodes))
    ensures LeavesLead(e) <==> Ref.TextAt(e, FromNodeId, "") == "lead"
  {
    hide TextOf, Ref.TextAt, KnownIds, Ref.Has, Ref.TextOf;
    TextMeans(e, FromNodeId);
    TextMeans(e, ToNodeId);
    KnownIdsAre(nodes, TextOf(e, FromNodeId));
    KnownIdsAre(nodes, TextOf(e, ToNodeId));
  }

  // A graph is certified exactly if it has a lead node, all its nodes and edges stand, and,
  // if it has more than one node, some edge leaves the lead.
  lemma CertifiableMeans(g: Graph, a: Assignments)
    ensures Certifiable(g, a, VOCABULARY) <==>
            && (exists n: Dict :: n in g.nodes && NodeType in n && n[NodeType] == String("lead_agent"))
            && (forall n :: n in g.nodes ==> NodeStands(n, a))
            && (forall e :: e in g.edges ==> EdgeStands(e, g.nodes))
            && (|g.nodes| > 1 ==> exists e :: e in g.edges && Ref.TextAt(e, FromNodeId, "") == "lead")
  {
    hide VOCABULARY, NodeStands, EdgeStands, TypeInvalid, AgentMissing, TypeMismatched, EdgeInvalid, LeavesLead, KnownIds, TextOf, Ref.TextAt,
         HasLead;
    Ref.IdsMean(g.nodes);
    forall n | n in g.nodes
      ensures NodeStands(n, a) <==>
              && !TypeInvalid(n, VOCABULARY) && !AgentMissing(n, a.agents) && !TypeMismatched(n, a.agents)
              && (TextOf(n, AgentId) != "" ==> TextOf(n, AgentId) in a.certified)
    {
      NodeStandsIff(n, a);
    }
    forall e | e in g.edges
      ensures EdgeStands(e, g.nodes) <==> !EdgeInvalid(e, KnownIds(g.nodes))
      ensures LeavesLead(e) <==> Ref.TextAt(e, FromNodeId, "") == "lead"
    {
      EdgeStandsIff(e, g.nodes);
    }
  }

  // --- Normalised graphs pass ------------------------------------------------------------

  // The agents of the graph are registered under canonical types: those normalisation
  // leaves alone.
  ghost predicate Canonical(g: Graph, reg: Registry) {
    forall n: Dict :: n in g.nodes && AgentId in n && n[AgentId].String? ==>
      Registered(reg, n[AgentId].s) == NormalType(reg.words, Registered(reg, n[AgentId].s))
  }

  lemma NodeTexts(n: Dict, reg: Registry)
    requires NormalNode(n, reg)
    ensures TextOf(n, NodeId) == n[NodeId].s && TextOf(n, AgentId) == n[AgentId].s
    ensures Sound(reg.words) ==> TextOf(n, NodeType) == n[NodeType].s
  {
    hide Strip;
    if Sound(reg.words) {
      WordsFixed(reg.words, n[NodeType].s);
    }
  }

  lemma NodeTypeChecked(n: Dict, reg: Registry)
    requires Sound(reg.words) && NormalNode(n, reg)
    ensures !TypeInvalid(n, reg.words)
    ensures !AgentMissing(n, reg.types) && !TypeMismatched(n, reg.types) <==>
            Registered(reg, n[AgentId].s) == NormalType(reg.words, Registered(reg, n[AgentId].s))
  {
    hide Strip;
    NodeTexts(n, reg);
    WordsFixed(reg.words, n[NodeType].s);
  }

  lemma NodeHasAgent(n: Dict, reg: Registry)
    requires NormalNode(n, reg)
    ensures AgentId in n && n[AgentId].String?
    ensures Truthy(Get(n, NodeId)) && Get(n, NodeId).String?
  {
  }

  lemma KnownNames(nodes: seq<Dict>, reg: Registry)
    requires forall n :: n in nodes ==> NormalNode(n, reg)
    ensures KnownIds(nodes) == Named(nodes, NodeId)
  {
    hide NormalNode;
    forall n | n in nodes
      ensures Truthy(Get(n, NodeId)) && Get(n, NodeId).String?
    {
      NodeHasAgent(n, reg);
    }
  }

  lemma EdgeChecked(e: Dict, ids: set<string>)
    requires NormalEdge(e, ids)
    ensures !EdgeInvalid(e, ids)
  {
  }

  // A normalised graph has a lead node and no invalid edge; its node types pass exactly if
  // the agents are registered canonically.
  lemma NormalGraphPasses(g: Graph, reg: Registry)
    requires Sound(reg.words) && NormalGraph(g, reg)
    ensures HasLead(g.nodes)
    ensures forall e :: e in g.edges ==> !EdgeInvalid(e, KnownIds(g.nodes))
    ensures TypesMatch(g.nodes, reg.types, reg.words) <==> Canonical(g, reg)
  {
    hide NormalNode, NormalEdge, TypeInvalid, AgentMissing, TypeMismatched, EdgeInvalid, KnownIds, NormalType;
    forall n: Dict | n in g.nodes
      ensures AgentId in n && n[AgentId].String?
      ensures !TypeInvalid(n, reg.words)
      ensures !AgentMissing(n, reg.types) && !TypeMismatched(n, reg.types) <==>
              Registered(reg, n[AgentId].s) == NormalType(reg.words, Registered(reg, n[AgentId].s))
    {
      NodeHasAgent(n, reg);
      NodeTypeChecked(n, reg);
    }
    KnownNames(g.nodes, reg);
    forall e | e in g.edges
      ensures !EdgeInvalid(e, KnownIds(g.nodes))
    {
      EdgeChecked(e, KnownIds(g.nodes));
    }
  }

  // A normalised graph of several nodes is certified exactly if its agents are registered
  // canonically and certified, and some edge leaves the lead node.
  lemma NormalGraphCertifiable(g: Graph, reg: Registry, a: Assignments)
    requires Sound(reg.words) && NormalGraph(g, reg) && a.agents == reg.types
    ensures Certifiable(g, a, reg.words) <==>
            && Canonical(g, reg)
            && AgentsCertified(g.nodes, a.certified)
            && (|g.nodes| == 1 || exists e :: e in g.edges && LeavesLead(e))
  {
    hide NormalNodes, NormalEdges, TypesMatch, Canonical, AgentsCertified, EdgeInvalid, KnownIds, LeavesLead;
    NormalGraphPasses(g, reg);
  }
}
