// The graph of a runtime manifest: compiling it from a certified workflow, and building
// a workflow definition back from it (intelliguard/adk/manifest.py,
// runtime/manifest_compiler.py:110-162, runtime/native_runner.py:59-109).
module ManifestCompiler {
  import opened Outcomes
  import opened Json
  import opened WorkflowGraph

  datatype RuntimeNode = RuntimeNode(
    nodeId: string,
    agentId: string,
    nodeType: string,
    allowedTools: seq<string>,
    runtime: Dict,
    metadata: Dict)

  datatype RuntimeEdge = RuntimeEdge(edgeId: string, fromNodeId: string, toNodeId: string, conditions: Dict)

  datatype Manifest = Manifest(nodes: seq<RuntimeNode>, edges: seq<RuntimeEdge>, metadata: Dict)

  datatype CompileError = NotCertified | InvalidManifest | SecretValue

  // --- Validation of the records: fields are not coerced, and others are dropped -----

  predicate StringAt(d: Dict, k: Key) {
    k in d && d[k].String?
  }

  // A dict, or nothing.
  predicate DictAt(d: Dict, k: Key) {
    k in d ==> d[k].Object?
  }

  // A list of strings, or nothing.
  predicate StringsAt(d: Dict, k: Key) {
    k in d ==> d[k].List? && forall i :: 0 <= i < |d[k].items| ==> d[k].items[i].String?
  }

  predicate NodeValid(n: Dict) {
    && StringAt(n, NodeId) && StringAt(n, AgentId) && StringAt(n, NodeType)
    && StringsAt(n, AllowedTools) && DictAt(n, Runtime) && DictAt(n, Metadata)
  }

  predicate EdgeValid(e: Dict) {
    StringAt(e, EdgeId) && StringAt(e, FromNodeId) && StringAt(e, ToNodeId) && DictAt(e, Conditions)
  }

  function NodeRecord(n: Dict): RuntimeNode
    requires NodeValid(n)
  {
    var tools := if AllowedTools in n then n[AllowedTools].items else [];
    RuntimeNode(n[NodeId].s, n[AgentId].s, n[NodeType].s,
                seq(|tools|, i requires 0 <= i < |tools| && tools[i].String? => tools[i].s),
                DictOrEmpty(Get(n, Runtime)), DictOrEmpty(Get(n, Metadata)))
  }

  function EdgeRecord(e: Dict): RuntimeEdge
    requires EdgeValid(e)
  {
    RuntimeEdge(e[EdgeId].s, e[FromNodeId].s, e[ToNodeId].s, DictOrEmpty(Get(e, Conditions)))
  }

  // compile_workflow_manifest, for the graph; whether some value looks like a secret is
  // given.
  function Compile(certified: bool, g: Graph, metadata: Dict, secret: bool): Result<Manifest, CompileError> {
    if !certified then Err(NotCertified)
    else if !((forall n :: n in g.nodes ==> NodeValid(n)) && (forall e :: e in g.edges ==> EdgeValid(e))) then Err(InvalidManifest)
    else if secret then Err(SecretValue)
    else Ok(Manifest(seq(|g.nodes|, i requires 0 <= i < |g.nodes| && NodeValid(g.nodes[i]) => NodeRecord(g.nodes[i])),
                     seq(|g.edges|, i requires 0 <= i < |g.edges| && EdgeValid(g.edges[i]) => EdgeRecord(g.edges[i])),
                     metadata))
  }

  // --- The definition a runner builds from a manifest -----------------------------------

  // What the workflow engine reads of a definition.
  datatype Definition = Definition(leadAgentId: Value, steps: seq<Dict>, nodes: Value, edges: Value, metadata: Value)

  function NodeDump(n: RuntimeNode): Dict {
    map[NodeId := String(n.nodeId), AgentId := String(n.agentId), NodeType := String(n.nodeType),
        AllowedTools := Strings(n.allowedTools), Runtime := Object(n.runtime, "{}"), Metadata := Object(n.metadata, "{}")]
  }

  function EdgeDump(e: RuntimeEdge): Dict {
    map[EdgeId := String(e.edgeId), FromNodeId := String(e.fromNodeId), ToNodeId := String(e.toNodeId),
        Conditions := Object(e.conditions, "{}")]
  }

  function NodeDumps(ns: seq<RuntimeNode>): seq<Dict> {
    seq(|ns|, i requires 0 <= i < |ns| => NodeDump(ns[i]))
  }

  function EdgeDumps(es: seq<RuntimeEdge>): seq<Dict> {
    seq(|es|, i requires 0 <= i < |es| => EdgeDump(es[i]))
  }

  function StepDump(n: RuntimeNode): Dict {
    NodeDump(n)[StepId := String(n.nodeId)]
               [ToolName := Get(n.runtime, ToolName)]
               [ToolArgs := Or(Get(n.runtime, ToolArgs), Object(map[], "{}"))]
  }

  function FirstLead(ns: seq<RuntimeNode>): (n: RuntimeNode)
    requires exists n :: n in ns && n.nodeType == LEAD_AGENT
    ensures n in ns && n.nodeType == LEAD_AGENT
    ensures exists i :: 0 <= i < |ns| && ns[i] == n && forall j :: 0 <= j < i ==> ns[j].nodeType != LEAD_AGENT
  {
    if ns[0].nodeType == LEAD_AGENT then ns[0]
    else
      var n := FirstLead(ns[1..]);
      assert exists i :: 0 <= i < |ns| && ns[i] == n && forall j :: 0 <= j < i ==> ns[j].nodeType != LEAD_AGENT by {
        var i :| 0 <= i < |ns[1..]| && ns[1..][i] == n && forall j :: 0 <= j < i ==> ns[1..][j].nodeType != LEAD_AGENT;
        assert ns[i + 1] == n;
        assert forall j :: 0 < j < i + 1 ==> ns[j] == ns[1..][j - 1];
      }
      n
  }

  // The first lead_agent node, or else the first node.
  function LeadOf(ns: seq<RuntimeNode>): RuntimeNode
    requires |ns| > 0
  {
    if exists n :: n in ns && n.nodeType == LEAD_AGENT then FirstLead(ns) else ns[0]
  }

  // The lead of a manifest is its first lead_agent node, and its first node if it has none.
  lemma LeadMeans(ns: seq<RuntimeNode>)
    requires |ns| > 0
    ensures exists i :: 0 <= i < |ns| && ns[i] == LeadOf(ns)
              && (if ns[i].nodeType == "lead_agent" then forall j :: 0 <= j < i ==> ns[j].nodeType != "lead_agent"
                  else i == 0 && forall j :: 0 <= j < |ns| ==> ns[j].nodeType != "lead_agent")
  {
    if exists n :: n in ns && n.nodeType == LEAD_AGENT {
      var lead := FirstLead(ns);
    } else {
      forall j | 0 <= j < |ns|
        ensures ns[j].nodeType != "lead_agent"
      {
        assert ns[j] in ns;
      }
      assert ns[0] == LeadOf(ns);
    }
  }

  function OtherThan(ns: seq<RuntimeNode>, id: string): seq<RuntimeNode> {
    if |ns| == 0 then []
    else OtherThan(ns[..|ns| - 1], id) + (if ns[|ns| - 1].nodeId == id then [] else [ns[|ns| - 1]])
  }

  function StepDumps(ns: seq<RuntimeNode>): seq<Dict> {
    seq(|ns|, i requires 0 <= i < |ns| => StepDump(ns[i]))
  }

  function Rebuilt(m: Manifest): Definition {
    Definition(if |m.nodes| == 0 then Null else String(LeadOf(m.nodes).agentId),
               if |m.nodes| == 0 then [] else StepDumps(OtherThan(m.nodes, LeadOf(m.nodes).nodeId)),
               Listed(NodeDumps(m.nodes)), Listed(EdgeDumps(m.edges)), Object(m.metadata, "{}"))
  }

  method Rebuild(m: Manifest) returns (d: Definition)
    ensures d == Rebuilt(m)
  {
    var leadAgentId, steps: seq<Dict> := Null, [];
    if |m.nodes| > 0 {
      var lead := LeadOf(m.nodes);
      leadAgentId := String(lead.agentId);
      for i := 0 to |m.nodes|
        invariant steps == StepDumps(OtherThan(m.nodes[..i], lead.nodeId))
      {
        assert m.nodes[..i + 1][..i] == m.nodes[..i];
        if m.nodes[i].nodeId == lead.nodeId {
          continue;
        }
        steps := steps + [StepDump(m.nodes[i])];
      }
      assert m.nodes[..|m.nodes|] == m.nodes;
    }
    d := Definition(leadAgentId, steps, Listed(NodeDumps(m.nodes)), Listed(EdgeDumps(m.edges)), Object(m.metadata, "{}"));
  }
}
