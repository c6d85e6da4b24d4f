// A deployment keeps the graph it was compiled from: what the engine runs after manifest
// compilation and rebuild, for normalised graphs.
module DeployedGraph {
  import opened Outcomes
  import opened Json
  import opened WorkflowGraph
  import opened WorkflowGraphLaws
  import opened ManifestCompiler
  import opened WorkflowRouting

  // --- Deduplication by name and by endpoints ---------------------------------------------

  predicate SameEnds(a: Link, b: Link) {
    a.source == b.source && a.target == b.target
  }

  predicate Meets(ls: seq<Link>, l: Link) {
    exists x | x in ls :: SameEnds(x, l)
  }

  // The first link of each pair of endpoints, in order.
  function ByEnds(ls: seq<Link>): seq<Link> {
    if |ls| == 0 then []
    else
      var front := ByEnds(ls[..|ls| - 1]);
      if Meets(front, ls[|ls| - 1]) then front else front + [ls[|ls| - 1]]
  }

  // Links of different endpoints have different names; ids that contain "->" may collide.
  ghost predicate NamesTell(ls: seq<Link>) {
    forall a, b :: a in ls && b in ls && NameOf(a) == NameOf(b) ==> SameEnds(a, b)
  }

  lemma {:induction false} ByNameWithin(ls: seq<Link>)
    ensures forall l :: l in ByName(ls) ==> l in ls
    ensures Names(ByName(ls)) == Names(ls)
    ensures forall i, j :: 0 <= i < j < |ByName(ls)| ==> NameOf(ByName(ls)[i]) != NameOf(ByName(ls)[j])
  {
    hide NameOf;
    if |ls| > 0 {
      var front, l := ls[..|ls| - 1], ls[|ls| - 1];
      ByNameWithin(front);
      NamesStep(front, l);
      NamesStep(ByName(front), l);
      assert front + [l] == ls;
    }
  }

  lemma MeetsItself(l: Link)
    ensures SameEnds(l, l)
  {
  }

  lemma {:induction false} ByEndsWithin(ls: seq<Link>)
    ensures forall l :: l in ByEnds(ls) ==> l in ls
    ensures forall l :: l in ls ==> Meets(ByEnds(ls), l)
  {
    hide SameEnds;
    if |ls| > 0 {
      var front, l := ls[..|ls| - 1], ls[|ls| - 1];
      ByEndsWithin(front);
      forall x | x in ls
        ensures Meets(ByEnds(ls), x)
      {
        MeetsItself(l);
        if x in front {
          var y :| y in ByEnds(front) && SameEnds(y, x);
          assert y in ByEnds(ls);
        } else if !Meets(ByEnds(front), l) {
          assert l in ByEnds(ls);
        }
      }
    }
  }

  lemma SameEndsSameName(a: Link, b: Link)
    requires SameEnds(a, b)
    ensures NameOf(a) == NameOf(b)
  {
  }

  // Two links that collide are both kept by endpoints, and not both by name.
  lemma CollisionSeen(ls: seq<Link>, a: Link, b: Link)
    requires a in ls && b in ls && NameOf(a) == NameOf(b) && !SameEnds(a, b)
    ensures ByName(ls) != ByEnds(ls)
  {
    hide ByName, ByEnds, NameOf, Names;
    ByNameWithin(ls);
    ByEndsWithin(ls);
    assert Meets(ByEnds(ls), a) && Meets(ByEnds(ls), b);
    var i :| 0 <= i < |ByEnds(ls)| && SameEnds(ByEnds(ls)[i], a);
    var j :| 0 <= j < |ByEnds(ls)| && SameEnds(ByEnds(ls)[j], b);
    SameEndsSameName(ByEnds(ls)[i], a);
    SameEndsSameName(ByEnds(ls)[j], b);
    assert i != j;
  }

  lemma {:induction false} ByNameAgrees(ls: seq<Link>)
    requires NamesTell(ls)
    ensures ByName(ls) == ByEnds(ls)
  {
    hide NameOf, SameEnds;
    if |ls| > 0 {
      var front, l := ls[..|ls| - 1], ls[|ls| - 1];
      ByNameAgrees(front);
      ByNameWithin(front);
      if NameOf(l) in Names(ByName(front)) {
        var x :| x in ByName(front) && NameOf(x) == NameOf(l);
        assert SameEnds(x, l);
      } else if Meets(ByEnds(front), l) {
        var x :| x in ByEnds(front) && SameEnds(x, l);
        SameEndsSameName(x, l);
      }
    }
  }

  // Deduplicating by name is deduplicating by endpoints exactly when names tell links apart.
  lemma ByNameIsByEnds(ls: seq<Link>)
    ensures ByName(ls) == ByEnds(ls) <==> NamesTell(ls)
  {
    hide ByName, ByEnds, NameOf, SameEnds;
    if NamesTell(ls) {
      ByNameAgrees(ls);
    } else {
      var a, b :| a in ls && b in ls && NameOf(a) == NameOf(b) && !SameEnds(a, b);
      CollisionSeen(ls, a, b);
    }
  }

  // --- Compiling a normal graph ------------------------------------------------------------

  lemma NormalNodeValid(n: Dict, reg: Registry)
    requires NormalNode(n, reg)
    ensures NodeValid(n) <==> (Runtime in n ==> n[Runtime].Object?) && (Metadata in n ==> n[Metadata].Object?)
  {
    hide Strip, NormalType;
  }

  lemma NormalEdgeValid(e: Dict, ids: set<string>)
    requires NormalEdge(e, ids)
    ensures EdgeValid(e)
  {
    hide Strip;
  }

  // A certified normal graph without secret values compiles unless a node has a runtime or
  // metadata entry that is no dict.
  lemma NormalGraphCompiles(g: Graph, reg: Registry, certified: bool, metadata: Dict, secret: bool)
    requires NormalGraph(g, reg)
    ensures Compile(certified, g, metadata, secret).Ok? <==>
            certified && !secret
            && forall n: Dict :: n in g.nodes ==> (Runtime in n ==> n[Runtime].Object?) && (Metadata in n ==> n[Metadata].Object?)
  {
    hide NormalNode, NormalEdge, NodeValid, EdgeValid;
    forall n: Dict | n in g.nodes
      ensures NodeValid(n) <==> (Runtime in n ==> n[Runtime].Object?) && (Metadata in n ==> n[Metadata].Object?)
    {
      NormalNodeValid(n, reg);
    }
    forall e | e in g.edges
      ensures EdgeValid(e)
    {
      NormalEdgeValid(e, Named(g.nodes, NodeId));
    }
  }

  // --- The deployed steps ---------------------------------------------------------------------

  // What the engine makes of the record of a node that is not the lead.
  ghost predicate IsStepOf(step: Dict, n: RuntimeNode) {
    && {StepId, AgentId, NodeType, ToolName, ToolArgs, ActivationPolicy} <= step.Keys
    && Get(step, StepId) == StepName(step) == String(n.nodeId)
    && Get(step, AgentId) == String(n.agentId)
    && Get(step, NodeType) == String(n.nodeType)
    && Get(step, AllowedTools) == Strings(n.allowedTools)
    && Get(step, Runtime) == Object(n.runtime, "{}")
    && Get(step, Metadata) == Object(n.metadata, "{}")
    && Get(step, ToolName) == Get(n.runtime, ToolName)
    && Get(step, ToolArgs) == Or(Get(n.runtime, ToolArgs), Object(map[], "{}"))
    && step[ActivationPolicy] == String("conditional")
    && Conditions !in step && ActivationKeywords !in step
  }

  // A dumped node knows nothing of activation.
  predicate Plain(d: Dict) {
    ActivationPolicy !in d && ActivationStage !in d && Conditions !in d && ActivationKeywords !in d
    && StepId !in d && ToolName !in d && ToolArgs !in d
  }

  lemma DumpIsPlain(n: RuntimeNode)
    ensures Plain(NodeDump(n))
  {
  }

  lemma {:induction false} NodeForPlain(nodes: seq<Dict>, id: Value)
    requires forall n :: n in nodes ==> Plain(n)
    ensures Plain(NodeFor(nodes, id))
  {
    if |nodes| > 0 {
      NodeForPlain(nodes[..|nodes| - 1], id);
    }
  }

  lemma DumpFields(n: RuntimeNode)
    ensures var step := StepDump(n);
            && Get(step, AgentId) == String(n.agentId) && AgentId in step
            && Get(step, NodeType) == String(n.nodeType)
            && Get(step, AllowedTools) == Strings(n.allowedTools) && AllowedTools in step
            && Get(step, Runtime) == Object(n.runtime, "{}") && Runtime in step
            && Get(step, Metadata) == Object(n.metadata, "{}") && Metadata in step
            && Get(step, ToolName) == Get(n.runtime, ToolName) && ToolName in step
            && Get(step, ToolArgs) == Or(Get(n.runtime, ToolArgs), Object(map[], "{}")) && ToolArgs in step
            && ActivationPolicy !in step && Conditions !in step && ActivationKeywords !in step
  {
  }

  lemma EnrichedFields(step: Dict, node: Dict, nodes: seq<Dict>, n: RuntimeNode)
    requires step == StepDump(n) && node == NodeFor(nodes, StepName(step)) && Plain(node)
    requires StepName(step) == String(n.nodeId) && n.nodeId != "" && n.nodeType != ""
    ensures IsStepOf(Enriched(step, nodes), n)
  {
    hide NodeFor, StepDump;
    DumpFields(n);
  }

  lemma StepIsStepOf(n: RuntimeNode, nodes: seq<Dict>)
    requires forall d :: d in nodes ==> Plain(d)
    requires n.nodeId != "" && n.nodeType != ""
    ensures IsStepOf(Enriched(StepDump(n), nodes), n)
  {
    hide NodeFor, Plain;
    var node, step := NodeFor(nodes, StepName(StepDump(n))), StepDump(n);
    NodeForPlain(nodes, StepName(step));
    assert StepName(step) == String(n.nodeId);
    EnrichedFields(step, node, nodes, n);
  }

  // The steps are those of these records, in order.
  ghost predicate StepsMatch(steps: seq<Dict>, ns: seq<RuntimeNode>) {
    |steps| == |ns| && forall i :: 0 <= i < |ns| ==> IsStepOf(steps[i], ns[i])
  }

  lemma {:induction false} OtherThanWithin(ns: seq<RuntimeNode>, id: string)
    ensures forall n :: n in OtherThan(ns, id) <==> n in ns && n.nodeId != id
  {
    if |ns| > 0 {
      OtherThanWithin(ns[..|ns| - 1], id);
    }
  }

  lemma RebuiltSteps(m: Manifest)
    requires |m.nodes| > 0 && forall n :: n in m.nodes ==> n.nodeId != "" && n.nodeType != ""
    ensures StepsMatch(Steps(Rebuilt(m)), OtherThan(m.nodes, LeadOf(m.nodes).nodeId))
  {
    hide Enriched, IsStepOf, Plain, StepDump, NodeDump, LeadOf;
    var d, others := Rebuilt(m), OtherThan(m.nodes, LeadOf(m.nodes).nodeId);
    var nodes := NodeDumps(m.nodes);
    DictsOfListed(nodes);
    forall n | n in nodes
      ensures Plain(n)
    {
      var i :| 0 <= i < |nodes| && nodes[i] == n;
      DumpIsPlain(m.nodes[i]);
    }
    OtherThanWithin(m.nodes, LeadOf(m.nodes).nodeId);
    forall i | 0 <= i < |others|
      ensures IsStepOf(Steps(d)[i], others[i])
    {
      assert others[i] in others;
      StepIsStepOf(others[i], nodes);
    }
  }

  // --- The deployed connections ------------------------------------------------------------------

  // The edges of a graph as links; conditions are written anew.
  function EdgeLinks(es: seq<Dict>): seq<Link> {
    seq(|es|, i requires 0 <= i < |es| =>
      Link(Shown(Get(es[i], FromNodeId)), Shown(Get(es[i], ToNodeId)), Get(es[i], EdgeId),
           Or(Object(DictOrEmpty(Get(es[i], Conditions)), "{}"), Object(map[], "{}"))))
  }

  predicate Survives(l: Link, lead: string) {
    lead == LEAD_NODE_ID || (l.source != lead && l.target != lead)
  }

  // The links of a deployed workflow: if the lead node has another id than "lead", those
  // that touch it are dropped.
  function Surviving(ls: seq<Link>, lead: string): seq<Link> {
    if |ls| == 0 then []
    else
      var l := ls[|ls| - 1];
      Surviving(ls[..|ls| - 1], lead) + (if Survives(l, lead) then [l] else [])
  }

  // The id of the first lead_agent node.
  ghost predicate LeadIs(nodes: seq<Dict>, lead: string) {
    exists i :: 0 <= i < |nodes| && IsLead(nodes[i]) && Get(nodes[i], NodeId) == String(lead)
                && forall j :: 0 <= j < i ==> !IsLead(nodes[j])
  }

  // The record a valid node or edge became.
  lemma CompiledFields(g: Graph, m: Manifest, metadata: Dict)
    requires Compile(true, g, metadata, false) == Ok(m)
    ensures |m.nodes| == |g.nodes| && |m.edges| == |g.edges| && m.metadata == metadata
    ensures forall i :: 0 <= i < |g.nodes| ==> NodeValid(g.nodes[i]) && m.nodes[i] == NodeRecord(g.nodes[i])
    ensures forall i :: 0 <= i < |g.edges| ==> EdgeValid(g.edges[i]) && m.edges[i] == EdgeRecord(g.edges[i])
  {
    hide NodeValid, EdgeValid, NodeRecord, EdgeRecord;
  }

  lemma RecordFields(n: Dict)
    requires NodeValid(n)
    ensures NodeRecord(n).nodeId == n[NodeId].s && NodeRecord(n).nodeType == n[NodeType].s
    ensures Get(n, NodeId) == String(n[NodeId].s)
    ensures AgentId in n && n[AgentId] == String(NodeRecord(n).agentId)
    ensures IsLead(n) <==> NodeRecord(n).nodeType == LEAD_AGENT
  {
  }

  // Everything the theorems below need of a manifest and its normal graph.
  ghost predicate Packaged(g: Graph, reg: Registry, m: Manifest, lead: string) {
    && Sound(reg.words) && NormalGraph(g, reg) && LeadIs(g.nodes, lead)
    && Compile(true, g, m.metadata, false) == Ok(m)
  }

  // The first lead_agent node has this id and this agent.
  ghost predicate Leads(nodes: seq<Dict>, lead: string, agent: Value) {
    exists i :: 0 <= i < |nodes| && IsLead(nodes[i]) && (forall j :: 0 <= j < i ==> !IsLead(nodes[j]))
                && NodeId in nodes[i] && nodes[i][NodeId] == String(lead)
                && AgentId in nodes[i] && nodes[i][AgentId] == agent
  }

  ghost predicate NodesAgree(g: Graph, m: Manifest, lead: string) {
    && |m.nodes| == |g.nodes| > 0
    && (forall i :: 0 <= i < |g.nodes| ==> NodeValid(g.nodes[i]) && m.nodes[i] == NodeRecord(g.nodes[i])
                                           && Get(g.nodes[i], NodeId) == String(m.nodes[i].nodeId))
    && (forall n :: n in m.nodes ==> n.nodeId != "" && n.nodeType != "")
    && LeadOf(m.nodes).nodeId == lead
    && Leads(g.nodes, lead, String(LeadOf(m.nodes).agentId))
  }

  lemma NormalNodeNamed(n: Dict, reg: Registry)
    requires Sound(reg.words) && NormalNode(n, reg)
    ensures n[NodeId].s != "" && n[NodeType].s != ""
  {
    hide Strip;
    WordsFixed(reg.words, n[NodeType].s);
  }

  lemma LeadAt(ns: seq<RuntimeNode>, i: nat)
    requires i < |ns| && ns[i].nodeType == LEAD_AGENT && forall j :: 0 <= j < i ==> ns[j].nodeType != LEAD_AGENT
    ensures LeadOf(ns) == ns[i]
  {
    assert ns[i] in ns;
    var n := FirstLead(ns);
    var k :| 0 <= k < |ns| && ns[k] == n && forall j :: 0 <= j < k ==> ns[j].nodeType != LEAD_AGENT;
    assert k == i;
  }

  lemma LeadCompiled(g: Graph, m: Manifest, lead: string)
    requires |m.nodes| == |g.nodes| && LeadIs(g.nodes, lead)
    requires forall i :: 0 <= i < |g.nodes| ==>
               && Get(g.nodes[i], NodeId) == String(m.nodes[i].nodeId)
               && AgentId in g.nodes[i] && g.nodes[i][AgentId] == String(m.nodes[i].agentId)
    requires forall i :: 0 <= i < |g.nodes| ==> (IsLead(g.nodes[i]) <==> m.nodes[i].nodeType == LEAD_AGENT)
    ensures |m.nodes| > 0 && LeadOf(m.nodes).nodeId == lead
    ensures Leads(g.nodes, lead, String(LeadOf(m.nodes).agentId))
  {
    hide IsLead, LeadOf;
    var i :| 0 <= i < |g.nodes| && IsLead(g.nodes[i]) && Get(g.nodes[i], NodeId) == String(lead)
             && forall j :: 0 <= j < i ==> !IsLead(g.nodes[j]);
    LeadAt(m.nodes, i);
  }

  lemma PackagedNodes(g: Graph, reg: Registry, m: Manifest, lead: string)
    requires Packaged(g, reg, m, lead)
    ensures NodesAgree(g, m, lead)
  {
    hide NodeValid, EdgeValid, NodeRecord, EdgeRecord, NormalNode, NormalEdges, Compile, IsLead, LeadOf;
    CompiledFields(g, m, m.metadata);
    forall i | 0 <= i < |g.nodes|
      ensures Get(g.nodes[i], NodeId) == String(m.nodes[i].nodeId)
      ensures AgentId in g.nodes[i] && g.nodes[i][AgentId] == String(m.nodes[i].agentId)
      ensures IsLead(g.nodes[i]) <==> m.nodes[i].nodeType == LEAD_AGENT
      ensures m.nodes[i].nodeId != "" && m.nodes[i].nodeType != ""
    {
      RecordFields(g.nodes[i]);
      NormalNodeNamed(g.nodes[i], reg);
    }
    LeadCompiled(g, m, lead);
  }

  // --- The deployed steps -----------------------------------------------------------------------

  ghost function FieldsAt(d: Dict, k: Key): Dict {
    if k in d && d[k].Object? then d[k].fields else map[]
  }

  ghost function ItemsAt(d: Dict, k: Key): seq<Value> {
    if k in d && d[k].List? then d[k].items else []
  }

  // The step the engine has for a node of the graph: the same id, agent, type, tools,
  // runtime and metadata, and the tool and arguments of its runtime. Activation settings
  // are lost.
  ghost predicate RunsNode(step: Dict, n: Dict) {
    var runtime := FieldsAt(n, Runtime);
    && {StepId, AgentId, NodeType, ToolName, ToolArgs, ActivationPolicy} <= step.Keys
    && {NodeId, AgentId, NodeType} <= n.Keys
    && step[StepId] == n[NodeId] && StepName(step) == n[NodeId]
    && step[AgentId] == n[AgentId]
    && step[NodeType] == n[NodeType]
    && ItemsAt(step, AllowedTools) == ItemsAt(n, AllowedTools)
    && FieldsAt(step, Runtime) == runtime
    && FieldsAt(step, Metadata) == FieldsAt(n, Metadata)
    && step[ToolName] == (if ToolName in runtime then runtime[ToolName] else Null)
    && step[ToolArgs] == (if ToolArgs in runtime && Truthy(runtime[ToolArgs]) then runtime[ToolArgs] else Object(map[], "{}"))
    && step[ActivationPolicy] == String("conditional")
    && Conditions !in step && ActivationKeywords !in step
  }

  // The nodes of another id, in order.
  ghost function Others(nodes: seq<Dict>, lead: string): seq<Dict> {
    if |nodes| == 0 then []
    else
      var n := nodes[|nodes| - 1];
      Others(nodes[..|nodes| - 1], lead) + (if NodeId in n && n[NodeId] == String(lead) then [] else [n])
  }

  ghost predicate StepsRun(steps: seq<Dict>, nodes: seq<Dict>) {
    |steps| == |nodes| && forall i :: 0 <= i < |nodes| ==> RunsNode(steps[i], nodes[i])
  }

  lemma ToolsRecorded(n: Dict)
    requires NodeValid(n)
    ensures Strings(NodeRecord(n).allowedTools).items == ItemsAt(n, AllowedTools)
  {
  }

  lemma RecordRuns(step: Dict, n: Dict)
    requires NodeValid(n) && IsStepOf(step, NodeRecord(n))
    ensures RunsNode(step, n)
  {
    ToolsRecorded(n);
  }

  lemma {:induction false} OthersRecorded(nodes: seq<Dict>, records: seq<RuntimeNode>, lead: string)
    requires |nodes| == |records|
    requires forall i :: 0 <= i < |nodes| ==> NodeValid(nodes[i]) && records[i] == NodeRecord(nodes[i])
    ensures var ns, rs := Others(nodes, lead), OtherThan(records, lead);
            |ns| == |rs| && forall i :: 0 <= i < |ns| ==> NodeValid(ns[i]) && rs[i] == NodeRecord(ns[i])
  {
    hide NodeValid, NodeRecord;
    if |nodes| > 0 {
      OthersRecorded(nodes[..|nodes| - 1], records[..|nodes| - 1], lead);
      RecordFields(nodes[|nodes| - 1]);
    }
  }

  lemma StepsRecorded(steps: seq<Dict>, records: seq<RuntimeNode>, nodes: seq<Dict>)
    requires StepsMatch(steps, records) && |nodes| == |records|
    requires forall i :: 0 <= i < |nodes| ==> NodeValid(nodes[i]) && records[i] == NodeRecord(nodes[i])
    ensures StepsRun(steps, nodes)
  {
    hide NodeValid, NodeRecord, IsStepOf, RunsNode;
    forall i | 0 <= i < |nodes|
      ensures RunsNode(steps[i], nodes[i])
    {
      RecordRuns(steps[i], nodes[i]);
    }
  }

  // The deployed steps are the nodes other than the lead node, in order, and the lead
  // agent is the agent of the lead node.
  lemma DeployedSteps(g: Graph, reg: Registry, m: Manifest, lead: string)
    requires Packaged(g, reg, m, lead)
    ensures StepsRun(Steps(Rebuilt(m)), Others(g.nodes, lead))
    ensures Leads(g.nodes, lead, Rebuilt(m).leadAgentId)
  {
    hide Packaged, NodeValid, NodeRecord, Steps, StepsMatch, StepsRun, OtherThan, Others, LeadOf, Leads;
    PackagedNodes(g, reg, m, lead);
    RebuiltSteps(m);
    OthersRecorded(g.nodes, m.nodes, lead);
    StepsRecorded(Steps(Rebuilt(m)), OtherThan(m.nodes, lead), Others(g.nodes, lead));
  }

  // --- The valid ids --------------------------------------------------------------------------

  lemma StepNamed(step: Dict, n: RuntimeNode)
    requires IsStepOf(step, n)
    ensures StepName(step) == String(n.nodeId)
  {
  }

  lemma {:induction false} StepIdsMatch(steps: seq<Dict>, ns: seq<RuntimeNode>)
    requires StepsMatch(steps, ns)
    ensures forall id :: id in StepIds(steps) <==> exists n :: n in ns && n.nodeId == id
  {
    hide IsStepOf, StepName;
    if |steps| > 0 {
      var front, last := ns[..|ns| - 1], ns[|ns| - 1];
      StepIdsMatch(steps[..|steps| - 1], front);
      StepNamed(steps[|steps| - 1], last);
      assert ns == front + [last];
    }
  }

  // An id is valid if it is "lead" or the id of a node other than the lead node.
  lemma DeployedIds(g: Graph, m: Manifest, lead: string, id: string)
    requires NodesAgree(g, m, lead)
    ensures id in ValidIds(Steps(Rebuilt(m))) <==> id == LEAD_NODE_ID || (id in Named(g.nodes, NodeId) && id != lead)
  {
    hide Steps, Rebuilt, IsStepOf, NodeValid, NodeRecord, LeadOf, Leads;
    var others := OtherThan(m.nodes, lead);
    RebuiltSteps(m);
    StepIdsMatch(Steps(Rebuilt(m)), others);
    OtherThanWithin(m.nodes, lead);
    if id in Named(g.nodes, NodeId) && id != lead {
      var i :| 0 <= i < |g.nodes| && Get(g.nodes[i], NodeId) == String(id);
      assert m.nodes[i] in others;
    }
  }

  // --- The connections ---------------------------------------------------------------------------

  // One edge of the graph, after compilation and rebuild.
  lemma EdgeSurvives(g: Graph, m: Manifest, lead: string, i: nat)
    requires NodesAgree(g, m, lead) && i < |g.edges| && |m.edges| == |g.edges|
    requires NormalEdge(g.edges[i], Named(g.nodes, NodeId))
    requires EdgeValid(g.edges[i]) && m.edges[i] == EdgeRecord(g.edges[i])
    ensures var raw := EdgeLink(EdgeDump(m.edges[i]));
            && raw.source.String? && raw.target.String?
            && Accepted(raw) == EdgeLinks(g.edges)[i]
            && (Acceptable(raw, ValidIds(Steps(Rebuilt(m)))) <==> Survives(EdgeLinks(g.edges)[i], lead))
  {
    hide Steps, Rebuilt, ValidIds, NodesAgree, Strip;
    DeployedIds(g, m, lead, g.edges[i][FromNodeId].s);
    DeployedIds(g, m, lead, g.edges[i][ToNodeId].s);
  }

  lemma {:induction false} FilteredSurviving(raws: seq<RawLink>, links: seq<Link>, valid: set<string>, lead: string)
    requires |raws| == |links|
    requires forall i :: 0 <= i < |raws| ==>
               && raws[i].source.String? && raws[i].target.String? && Accepted(raws[i]) == links[i]
               && (Acceptable(raws[i], valid) <==> Survives(links[i], lead))
    ensures Filtered(raws, valid) == Surviving(links, lead)
  {
    hide Acceptable, Accepted;
    if |raws| > 0 {
      FilteredSurviving(raws[..|raws| - 1], links[..|links| - 1], valid, lead);
    }
  }

  lemma RebuiltLinks(m: Manifest) returns (raws: seq<RawLink>)
    requires |m.edges| > 0
    ensures RawLinks(Rebuilt(m)) == Some(raws) && |raws| == |m.edges|
    ensures forall i :: 0 <= i < |raws| ==> raws[i] == EdgeLink(EdgeDump(m.edges[i]))
  {
    hide EdgeLink, EdgeDump, LeadOf, StepDumps, OtherThan, NodeDumps;
    var edges := EdgeDumps(m.edges);
    DictsOfListed(edges);
    raws := RawLinks(Rebuilt(m)).value;
  }

  lemma EdgeLinksLength(es: seq<Dict>)
    ensures |EdgeLinks(es)| == |es|
  {
  }

  // The connections of a deployed workflow are the surviving edges, the first of each name.
  lemma DeployedConnections(g: Graph, reg: Registry, m: Manifest, lead: string)
    requires Packaged(g, reg, m, lead) && g.edges != []
    ensures Connections(Rebuilt(m), Steps(Rebuilt(m))) == ByName(Surviving(EdgeLinks(g.edges), lead))
  {
    hide NodeValid, EdgeValid, NodeRecord, EdgeRecord, NormalNodes, NormalEdge, Compile, Steps, ByName, Filtered,
         Acceptable, Accepted, EdgeLinks, EdgeLink, EdgeDump, LeadIs, ValidIds, NodesAgree, LeadOf, Survives;
    PackagedNodes(g, reg, m, lead);
    CompiledFields(g, m, m.metadata);
    var raws := RebuiltLinks(m);
    EdgeLinksLength(g.edges);
    forall i | 0 <= i < |raws|
      ensures raws[i].source.String? && raws[i].target.String? && Accepted(raws[i]) == EdgeLinks(g.edges)[i]
      ensures Acceptable(raws[i], ValidIds(Steps(Rebuilt(m)))) <==> Survives(EdgeLinks(g.edges)[i], lead)
    {
      assert g.edges[i] in g.edges;
      EdgeSurvives(g, m, lead, i);
    }
    FilteredSurviving(raws, EdgeLinks(g.edges), ValidIds(Steps(Rebuilt(m))), lead);
  }

  lemma {:induction false} AllSurvive(ls: seq<Link>)
    ensures Surviving(ls, LEAD_NODE_ID) == ls
  {
    if |ls| > 0 {
      AllSurvive(ls[..|ls| - 1]);
    }
  }

  // --- Routing ---------------------------------------------------------------------------------

  lemma StepActivates(step: Dict, n: RuntimeNode, query: string, lower: string -> string)
    requires IsStepOf(step, n)
    ensures Activates(step, query, lower)
  {
  }

  // No step of a deployed workflow has keywords, so every step is selected.
  lemma {:induction false} AllSelected(steps: seq<Dict>, ns: seq<RuntimeNode>, query: string, lower: string -> string)
    requires StepsMatch(steps, ns)
    ensures Selected(steps, query, lower) == steps
  {
    hide IsStepOf, Activates;
    if |steps| > 0 {
      var last := |steps| - 1;
      AllSelected(steps[..last], ns[..last], query, lower);
      StepActivates(steps[last], ns[last], query, lower);
    }
  }

  lemma {:induction false} AllUsed(connections: seq<Link>, selected: seq<Dict>)
    requires forall l :: l in connections ==> Used(l, selected)
    ensures UsedLinks(connections, selected) == connections
  {
    hide Used;
    if |connections| > 0 {
      AllUsed(connections[..|connections| - 1], selected);
    }
  }

  lemma {:induction false} FilteredWithin(ls: seq<RawLink>, valid: set<string>)
    ensures forall l :: l in Filtered(ls, valid) ==> l.source in valid && l.target in valid && l.target != LEAD_NODE_ID
  {
    if |ls| > 0 {
      FilteredWithin(ls[..|ls| - 1], valid);
    }
  }

  lemma LinkUsed(l: Link, steps: seq<Dict>, ns: seq<RuntimeNode>)
    requires StepsMatch(steps, ns)
    requires forall id :: id in StepIds(steps) <==> exists n :: n in ns && n.nodeId == id
    requires l.target in StepIds(steps) && (l.source == LEAD_NODE_ID || l.source in StepIds(steps))
    ensures Used(l, steps)
  {
    var i :| 0 <= i < |ns| && ns[i].nodeId == l.target;
    assert StepName(steps[i]) == String(l.target) && steps[i] in steps;
    if l.source != LEAD_NODE_ID {
      var j :| 0 <= j < |ns| && ns[j].nodeId == l.source;
      assert StepName(steps[j]) == String(l.source) && steps[j] in steps;
    }
  }

  // Every connection of a deployed workflow is reported as used.
  lemma DeployedHandoffs(m: Manifest)
    requires |m.nodes| > 0 && forall n :: n in m.nodes ==> n.nodeId != "" && n.nodeType != ""
    ensures var steps := Steps(Rebuilt(m));
            UsedLinks(Connections(Rebuilt(m), steps), steps) == Connections(Rebuilt(m), steps)
  {
    hide Steps, Rebuilt, IsStepOf, LeadOf, RawLinks, Filtered, ByName;
    var d, steps, others := Rebuilt(m), Steps(Rebuilt(m)), OtherThan(m.nodes, LeadOf(m.nodes).nodeId);
    RebuiltSteps(m);
    StepIdsMatch(steps, others);
    if RawLinks(d).Some? {
      ByNameWithin(Filtered(RawLinks(d).value, ValidIds(steps)));
      FilteredWithin(RawLinks(d).value, ValidIds(steps));
    }
    forall l | l in Connections(d, steps)
      ensures Used(l, steps)
    {
      LinkUsed(l, steps, others);
    }
    AllUsed(Connections(d, steps), steps);
  }

  // --- The whole way -----------------------------------------------------------------------------

  // What the engine reads of a manifest compiled from a normal graph with edges: the other
  // nodes are selected steps, in order; the connections are the edges that do not touch a
  // lead node of another id than "lead", the first of each name; all of them are used.
  lemma PackagedKeepsGraph(g: Graph, reg: Registry, m: Manifest, lead: string, query: string, lower: string -> string)
    requires Packaged(g, reg, m, lead) && g.edges != []
    ensures var steps := Steps(Rebuilt(m));
            var connections := Connections(Rebuilt(m), steps);
            && StepsRun(steps, Others(g.nodes, lead)) && Leads(g.nodes, lead, Rebuilt(m).leadAgentId)
            && Selected(steps, query, lower) == steps
            && UsedLinks(connections, steps) == connections
            && connections == ByName(Surviving(EdgeLinks(g.edges), lead))
            && (connections == ByEnds(Surviving(EdgeLinks(g.edges), lead)) <==> NamesTell(Surviving(EdgeLinks(g.edges), lead)))
  {
    hide Packaged, Steps, Rebuilt, Connections, ByName, ByEnds, NamesTell, StepsMatch, StepsRun, Leads;
    PackagedNodes(g, reg, m, lead);
    DeployedSteps(g, reg, m, lead);
    RebuiltSteps(m);
    AllSelected(Steps(Rebuilt(m)), OtherThan(m.nodes, lead), query, lower);
    DeployedHandoffs(m);
    DeployedConnections(g, reg, m, lead);
    ByNameIsByEnds(Surviving(EdgeLinks(g.edges), lead));
  }

  // A normalised graph with edges, whose lead node is "lead", comes out of compilation,
  // rebuild and the engine's own reading as it went in: the connections are the edges, the
  // first of each pair of endpoints, in order, exactly when their names tell them apart.
  lemma DeploymentKeepsGraph(p: Payload, reg: Registry, g: Graph, m: Manifest, query: string, lower: string -> string)
    requires Sound(reg.words) && Normalized(p, reg) == Ok(g) && g.edges != []
    requires LeadIs(g.nodes, LEAD_NODE_ID) && Compile(true, g, m.metadata, false) == Ok(m)
    ensures var steps := Steps(Rebuilt(m));
            var connections := Connections(Rebuilt(m), steps);
            && StepsRun(steps, Others(g.nodes, LEAD_NODE_ID)) && Leads(g.nodes, LEAD_NODE_ID, Rebuilt(m).leadAgentId)
            && Selected(steps, query, lower) == steps
            && UsedLinks(connections, steps) == connections
            && (connections == ByEnds(EdgeLinks(g.edges)) <==> NamesTell(EdgeLinks(g.edges)))
  {
    hide Normalized, NormalGraph, LeadIs, Compile, Steps, Rebuilt, Connections, ByName, ByEnds, NamesTell,
         StepsMatch, StepsRun, Leads;
    NormalizedIsNormal(p, reg);
    AllSurvive(EdgeLinks(g.edges));
    PackagedKeepsGraph(g, reg, m, LEAD_NODE_ID, query, lower);
  }

  // --- Ids without arrows ------------------------------------------------------------------------

  predicate ArrowFree(s: string) {
    forall i :: 0 <= i < |s| - 1 ==> !(s[i] == '-' && s[i + 1] == '>')
  }

  // A name is its source, the arrow and its target.
  lemma NameRead(l: Link)
    ensures var name, k := NameOf(l), |l.source|;
            && |name| >= k + 2 && name[..k] == l.source && name[k + 2..] == l.target
            && name[k] == '-' && name[k + 1] == '>'
            && forall i :: 0 <= i < k ==> name[i] == l.source[i]
  {
  }

  // Its arrow is the first one in it, if the source has none.
  lemma SourceRead(a: Link, b: Link)
    requires ArrowFree(a.source) && ArrowFree(b.source) && NameOf(a) == NameOf(b)
    ensures |a.source| <= |b.source|
  {
    hide NameOf;
    NameRead(a);
    NameRead(b);
  }

  lemma ArrowFreeNamesTell(ls: seq<Link>)
    requires forall l :: l in ls ==> ArrowFree(l.source)
    ensures NamesTell(ls)
  {
    hide NameOf, ArrowFree;
    forall a, b | a in ls && b in ls && NameOf(a) == NameOf(b)
      ensures SameEnds(a, b)
    {
      SourceRead(a, b);
      SourceRead(b, a);
      NameRead(a);
      NameRead(b);
    }
  }

  lemma EdgeSources(g: Graph, reg: Registry)
    requires NormalGraph(g, reg) && forall id :: id in Named(g.nodes, NodeId) ==> ArrowFree(id)
    ensures forall l :: l in EdgeLinks(g.edges) ==> ArrowFree(l.source)
  {
    hide ArrowFree, NormalNodes;
    forall l | l in EdgeLinks(g.edges)
      ensures ArrowFree(l.source)
    {
      var i :| 0 <= i < |EdgeLinks(g.edges)| && EdgeLinks(g.edges)[i] == l;
      assert NormalEdge(g.edges[i], Named(g.nodes, NodeId));
    }
  }

  // So a graph whose node ids have no arrow in them keeps all its edges: what the engine has
  // are the edges, the first of each pair of endpoints, in order.
  lemma ArrowFreeGraphSurvives(p: Payload, reg: Registry, g: Graph, m: Manifest)
    requires Sound(reg.words) && Normalized(p, reg) == Ok(g) && g.edges != []
    requires LeadIs(g.nodes, LEAD_NODE_ID) && Compile(true, g, m.metadata, false) == Ok(m)
    requires forall id :: id in Named(g.nodes, NodeId) ==> ArrowFree(id)
    ensures Connections(Rebuilt(m), Steps(Rebuilt(m))) == ByEnds(EdgeLinks(g.edges))
  {
    hide Normalized, NormalGraph, LeadIs, Compile, Steps, Rebuilt, Connections, ByEnds, NamesTell, StepsRun,
         Leads, ArrowFree;
    NormalizedIsNormal(p, reg);
    EdgeSources(g, reg);
    ArrowFreeNamesTell(EdgeLinks(g.edges));
    DeploymentKeepsGraph(p, reg, g, m, "", s => s);
  }
}
