// What normalisation of workflow graphs promises: normal forms, unique ids, and that
// normalising twice is normalising once, exactly when no edge was made up.
module WorkflowGraphLaws {
  import opened Outcomes
  import opened Json
  import opened WorkflowGraph

  // --- Normal nodes ---------------------------------------------------------------

  predicate Name(v: Value) {
    v.String? && v.s != "" && Stripped(v.s)
  }

  predicate TextList(v: Value) {
    v == ListValue(v)
  }

  ghost predicate NormalNode(n: Dict, reg: Registry) {
    && Name(Get(n, NodeId)) && Name(Get(n, AgentId))
    && Get(n, NodeType) == String(NormalType(reg.words, Registered(reg, Get(n, AgentId).s)))
    && NormalType(reg.words, Registered(reg, Get(n, AgentId).s)) in reg.words.nodeTypes
    && Get(n, ActivationPolicy).String? && Get(n, ActivationPolicy).s in reg.words.policies
    && Get(n, ActivationStage).String? && Get(n, ActivationStage).s in reg.words.stages
    && NodeId in n && AgentId in n && NodeType in n && ActivationPolicy in n && ActivationStage in n
    && Capabilities in n && TextList(n[Capabilities])
    && AllowedTools in n && TextList(n[AllowedTools])
    && DataScope in n && n[DataScope].Object?
    && SideEffectLevel in n && n[SideEffectLevel].String? && n[SideEffectLevel].s != ""
  }

  // The words of a sound vocabulary are non-empty and their own normal form.
  lemma WordsFixed(words: Vocabulary, t: string)
    requires Sound(words)
    ensures t in words.nodeTypes ==> NormalType(words, t) == t && t != ""
    ensures t in words.policies || t in words.stages ==> t != ""
  {
    StrippedFixed(t);
  }

  lemma {:induction false} TextsFixed(ss: seq<string>)
    requires forall i :: 0 <= i < |ss| ==> ss[i] != ""
    ensures Texts(Strings(ss).items) == ss
  {
    if |ss| > 0 {
      var front := ss[..|ss| - 1];
      TextsFixed(front);
      assert Strings(front).items == Strings(ss).items[..|ss| - 1];
    }
  }

  lemma ListValueIsTextList(v: Value)
    ensures TextList(ListValue(v))
  {
    TextsFixed(if v.List? then Texts(v.items) else []);
  }

  lemma IdOfName(raw: Dict, k: Key, k': Key)
    ensures Stripped(IdOf(raw, k, k'))
    ensures Name(Get(raw, k)) ==> IdOf(raw, k, k') == Get(raw, k).s
  {
    StripStrips(Shown(Or(Or(Get(raw, k), Get(raw, k')), String(""))));
    if Name(Get(raw, k)) {
      StrippedFixed(Get(raw, k).s);
    }
  }

  lemma FilledNormal(raw: Dict, reg: Registry)
    requires NodeIdOf(raw) != "" && AgentIdOf(raw) != ""
    requires ClaimedType(raw, reg) == RegisteredType(raw, reg) && ClaimedType(raw, reg) in reg.words.nodeTypes
    requires PolicyOf(raw, reg) in reg.words.policies && StageOf(raw, reg) in reg.words.stages
    ensures NormalNode(Filled(raw, reg), reg)
  {
    hide Strip, ListValue;
    IdOfName(raw, NodeId, StepId);
    IdOfName(raw, AgentId, AgentId);
    ListValueIsTextList(Get(raw, Capabilities));
    ListValueIsTextList(Get(raw, AllowedTools));
  }

  lemma NodeOfNormal(raw: Dict, seen: set<string>, reg: Registry)
    requires NodeOf(raw, seen, reg).Ok?
    ensures NormalNode(NodeOf(raw, seen, reg).value, reg)
    ensures Get(NodeOf(raw, seen, reg).value, NodeId).s !in seen
  {
    hide Filled, NormalNode, Strip, PolicyOf, StageOf;
    NodeIsNamed(raw, seen, reg);
    FilledNormal(raw, reg);
  }

  // The fields of a normal node are what a round would write.
  lemma NormalFields(n: Dict, reg: Registry)
    requires Sound(reg.words) && NormalNode(n, reg)
    ensures NodeIdOf(n) == n[NodeId].s && AgentIdOf(n) == n[AgentId].s
    ensures ClaimedType(n, reg) == RegisteredType(n, reg) == n[NodeType].s
    ensures PolicyOf(n, reg) == n[ActivationPolicy].s && StageOf(n, reg) == n[ActivationStage].s
  {
    hide Strip;
    IdOfName(n, NodeId, StepId);
    IdOfName(n, AgentId, AgentId);
    WordsFixed(reg.words, n[NodeType].s);
    WordsFixed(reg.words, n[ActivationPolicy].s);
    WordsFixed(reg.words, n[ActivationStage].s);
  }

  lemma NormalNodeFixed(n: Dict, seen: set<string>, reg: Registry)
    requires Sound(reg.words) && NormalNode(n, reg) && Get(n, NodeId).s !in seen
    ensures NodeOf(n, seen, reg) == Ok(n)
  {
    hide Strip, PolicyOf, StageOf, ClaimedType, RegisteredType, NodeIdOf, AgentIdOf;
    NormalFields(n, reg);
    assert Filled(n, reg) == n;
  }

  ghost predicate Unique(ds: seq<Dict>, k: Key) {
    forall i, j :: 0 <= i < j < |ds| ==> Get(ds[i], k) != Get(ds[j], k)
  }

  ghost predicate NormalNodes(ns: seq<Dict>, reg: Registry) {
    && (forall n :: n in ns ==> NormalNode(n, reg))
    && Unique(ns, NodeId)
  }

  lemma {:induction false} NodesNormal(raws: seq<Dict>, reg: Registry)
    requires NodesOf(raws, reg).Ok?
    ensures NormalNodes(NodesOf(raws, reg).value, reg)
    ensures |NodesOf(raws, reg).value| == |raws|
  {
    hide NodeOf, NormalNode;
    if |raws| > 0 {
      var front, raw := raws[..|raws| - 1], raws[|raws| - 1];
      NodesNormal(front, reg);
      NodeOfNormal(raw, Named(NodesOf(front, reg).value, NodeId), reg);
      NodeIsNamed(raw, Named(NodesOf(front, reg).value, NodeId), reg);
    }
  }

  lemma {:induction false} NormalNodesFixed(ns: seq<Dict>, reg: Registry)
    requires Sound(reg.words) && NormalNodes(ns, reg)
    ensures NodesOf(ns, reg) == Ok(ns)
  {
    hide NodeOf;
    if |ns| > 0 {
      var front, n := ns[..|ns| - 1], ns[|ns| - 1];
      NormalNodesFixed(front, reg);
      NormalNodeFixed(n, Named(front, NodeId), reg);
      assert front + [n] == ns;
    }
  }

  // Normal nodes are exactly the lists that normalisation leaves alone.
  lemma NodesFixedIffNormal(ns: seq<Dict>, reg: Registry)
    requires Sound(reg.words)
    ensures NodesOf(ns, reg) == Ok(ns) <==> NormalNodes(ns, reg)
  {
    if NodesOf(ns, reg) == Ok(ns) {
      NodesNormal(ns, reg);
    } else if NormalNodes(ns, reg) {
      NormalNodesFixed(ns, reg);
    }
  }

  // --- Normal edges -----------------------------------------------------------------

  ghost predicate NormalEdge(e: Dict, ids: set<string>) {
    && EdgeId in e && e[EdgeId].String? && e[EdgeId].s != ""
    && FromNodeId in e && Name(e[FromNodeId]) && e[FromNodeId].s in ids
    && ToNodeId in e && Name(e[ToNodeId]) && e[ToNodeId].s in ids
    && e[FromNodeId] != e[ToNodeId]
    && e[ToNodeId].s != LEAD_NODE_ID
    && Conditions in e && e[Conditions].Object?
  }

  ghost predicate NormalEdges(es: seq<Dict>, ids: set<string>) {
    && (forall e :: e in es ==> NormalEdge(e, ids))
    && Unique(es, EdgeId)
  }

  lemma EdgeIdShown(raw: Dict)
    ensures EdgeIdOf(raw) != ""
  {
    hide IdOf;
  }

  lemma JoinedNormal(raw: Dict, ids: set<string>)
    requires SourceOf(raw) != "" && TargetOf(raw) != "" && SourceOf(raw) != TargetOf(raw)
    requires SourceOf(raw) in ids && TargetOf(raw) in ids && TargetOf(raw) != LEAD_NODE_ID
    ensures NormalEdge(Joined(raw), ids) && Get(Joined(raw), EdgeId) == String(EdgeIdOf(raw))
  {
    hide IdOf, EdgeIdOf;
    IdOfName(raw, FromNodeId, From);
    IdOfName(raw, ToNodeId, To);
    EdgeIdShown(raw);
  }

  lemma EdgeOfNormal(raw: Dict, seen: set<string>, ids: set<string>)
    requires EdgeOf(raw, seen, ids).Ok? && EdgeOf(raw, seen, ids).value.Some?
    ensures NormalEdge(EdgeOf(raw, seen, ids).value.value, ids)
    ensures Get(EdgeOf(raw, seen, ids).value.value, EdgeId).s !in seen
  {
    hide Joined, EdgeIdOf, SourceOf, TargetOf, NormalEdge;
    JoinedNormal(raw, ids);
  }

  lemma NormalEdgeFixed(e: Dict, seen: set<string>, ids: set<string>)
    requires NormalEdge(e, ids) && e[EdgeId].s !in seen
    ensures EdgeOf(e, seen, ids) == Ok(Some(e))
  {
    IdOfName(e, FromNodeId, From);
    IdOfName(e, ToNodeId, To);
    assert EdgeOf(e, seen, ids).Ok? && EdgeOf(e, seen, ids).value.Some?;
    assert EdgeOf(e, seen, ids).value.value == e;
  }

  lemma {:induction false} EdgesNormal(raws: seq<Dict>, ids: set<string>)
    requires EdgesOf(raws, ids).Ok?
    ensures NormalEdges(EdgesOf(raws, ids).value, ids)
    ensures EdgesOf(raws, ids).value == [] <==> raws == []
  {
    if |raws| > 0 {
      var front, raw := raws[..|raws| - 1], raws[|raws| - 1];
      EdgesNormal(front, ids);
      var es := EdgesOf(front, ids).value;
      var edge := EdgeOf(raw, Named(es, EdgeId), ids).value;
      if edge.Some? {
        EdgeOfNormal(raw, Named(es, EdgeId), ids);
      } else {
        assert es != [];
      }
    }
  }

  lemma {:induction false} NormalEdgesFixed(es: seq<Dict>, ids: set<string>)
    requires NormalEdges(es, ids)
    ensures EdgesOf(es, ids) == Ok(es)
  {
    hide EdgeOf;
    if |es| > 0 {
      var front, e := es[..|es| - 1], es[|es| - 1];
      NormalEdgesFixed(front, ids);
      assert e in es;
      NormalEdgeFixed(e, Named(front, EdgeId), ids);
      assert front + [e] == es;
    }
  }

  lemma EdgesFixedIffNormal(es: seq<Dict>, ids: set<string>)
    ensures EdgesOf(es, ids) == Ok(es) <==> NormalEdges(es, ids)
  {
    if EdgesOf(es, ids) == Ok(es) {
      EdgesNormal(es, ids);
    } else if NormalEdges(es, ids) {
      NormalEdgesFixed(es, ids);
    }
  }

  // --- Normal graphs -----------------------------------------------------------------

  ghost predicate NormalGraph(g: Graph, reg: Registry) {
    && NormalNodes(g.nodes, reg)
    && HasLead(g.nodes)
    && NormalEdges(g.edges, Named(g.nodes, NodeId))
  }

  lemma NormalizedIsNormal(p: Payload, reg: Registry)
    requires Normalized(p, reg).Ok?
    ensures NormalGraph(Normalized(p, reg).value, reg)
  {
    var steps := StepsOf(p).value;
    NodesNormal(Dicts(NodeInputs(p, steps)), reg);
    EdgesNormal(Dicts(EdgeInputs(p, steps)), Named(Normalized(p, reg).value.nodes, NodeId));
  }

  // The payload with its graph replaced.
  function WithGraph(p: Payload, g: Graph): Payload {
    p.(nodes := Listed(g.nodes), edges := Listed(g.edges))
  }

  // A list of edges that holds no dict hides the edges the payload would otherwise get.
  predicate HidesFallback(p: Payload)
    requires StepsOf(p).Ok?
  {
    NonEmptyList(p.edges) && Dicts(p.edges.items) == [] && FallbackEdges(p, StepsOf(p).value) != []
  }

  lemma SameFallback(p: Payload, p': Payload, steps: seq<Dict>)
    requires p'.metadata == p.metadata
    ensures FallbackEdges(p', steps) == FallbackEdges(p, steps)
  {
  }

  // The second pass over the edges.
  lemma EdgesAgain(p: Payload, p': Payload, g: Graph, steps: seq<Dict>, ids: set<string>)
    requires StepsOf(p) == Ok(steps) && EdgesOf(Dicts(EdgeInputs(p, steps)), ids) == Ok(g.edges)
    requires p' == WithGraph(p, g)
    ensures EdgesOf(Dicts(EdgeInputs(p', steps)), ids) == Ok(g.edges) <==> !HidesFallback(p)
  {
    hide EdgesOf, NormalEdges, FallbackEdges;
    EdgesNormal(Dicts(EdgeInputs(p, steps)), ids);
    DictsOfListed(FallbackEdges(p, steps));
    if g.edges != [] {
      DictsOfListed(g.edges);
      NormalEdgesFixed(g.edges, ids);
    } else {
      SameFallback(p, p', steps);
      if EdgesOf(FallbackEdges(p, steps), ids).Ok? {
        EdgesNormal(FallbackEdges(p, steps), ids);
      }
    }
  }

  lemma SameNodesAgain(p': Payload, g: Graph, steps: seq<Dict>, reg: Registry)
    requires Sound(reg.words) && NormalNodes(g.nodes, reg) && HasLead(g.nodes) && p'.nodes == Listed(g.nodes)
    ensures NodesOf(Dicts(NodeInputs(p', steps)), reg) == Ok(g.nodes)
  {
    DictsOfListed(g.nodes);
    NormalNodesFixed(g.nodes, reg);
    assert NonEmptyList(p'.nodes) by {
      var n :| n in g.nodes && IsLead(n);
    }
  }

  // Normalising the normalised payload gives the same graph, exactly when the raw edges
  // did not hide the fallback.
  lemma NormalizeTwice(p: Payload, reg: Registry)
    requires Sound(reg.words) && Normalized(p, reg).Ok?
    ensures Normalized(WithGraph(p, Normalized(p, reg).value), reg) == Normalized(p, reg) <==> !HidesFallback(p)
  {
    hide NodesOf, EdgesOf, NormalNodes, NormalEdges, NodeInputs, EdgeInputs, FallbackEdges;
    var g, steps := Normalized(p, reg).value, StepsOf(p).value;
    NormalizedIsNormal(p, reg);
    SameNodesAgain(WithGraph(p, g), g, steps, reg);
    EdgesAgain(p, WithGraph(p, g), g, steps, Named(g.nodes, NodeId));
  }

  // --- What normalisation keeps of its input ----------------------------------------

  const WRITTEN := {NodeId, AgentId, NodeType, ActivationPolicy, ActivationStage, Capabilities, AllowedTools, DataScope, SideEffectLevel}

  lemma FilledKeeps(raw: Dict, reg: Registry)
    ensures Filled(raw, reg) - WRITTEN == raw - WRITTEN
  {
    hide Strip, PolicyOf, StageOf, ClaimedType, NodeIdOf, AgentIdOf;
  }

  // Each node is its raw node with the nine fields written; every other field is kept.
  lemma {:induction false} NodesKeep(raws: seq<Dict>, reg: Registry, i: nat)
    requires NodesOf(raws, reg).Ok? && i < |raws|
    ensures |NodesOf(raws, reg).value| == |raws|
    ensures NodesOf(raws, reg).value[i] == Filled(raws[i], reg)
    ensures Filled(raws[i], reg) - WRITTEN == raws[i] - WRITTEN
  {
    hide Strip, Filled, NormalNode, PolicyOf, StageOf, ClaimedType, RegisteredType, WRITTEN;
    NodesNormal(raws, reg);
    var front := raws[..|raws| - 1];
    NodesNormal(front, reg);
    if i < |raws| - 1 {
      NodesKeep(front, reg, i);
    } else {
      FilledKeeps(raws[i], reg);
    }
  }

  // Edge e is what the loop makes of the first raw edge with its id.
  ghost predicate FirstOf(e: Dict, raws: seq<Dict>) {
    exists i :: 0 <= i < |raws| && e == Joined(raws[i]) && forall j :: 0 <= j < i ==> EdgeIdOf(raws[j]) != EdgeIdOf(raws[i])
  }

  lemma FirstOfMore(e: Dict, front: seq<Dict>, raws: seq<Dict>)
    requires FirstOf(e, front) && front <= raws
    ensures FirstOf(e, raws)
  {
    hide EdgeIdOf, Joined;
    var i :| 0 <= i < |front| && e == Joined(front[i]) && forall j :: 0 <= j < i ==> EdgeIdOf(front[j]) != EdgeIdOf(front[i]);
    assert raws[i] == front[i];
  }

  // The last round: a new edge is the first of its id; otherwise the id was there.
  lemma EdgeNamed(es: seq<Dict>, front: seq<Dict>, raw: Dict, edge: Option<Dict>, ids: set<string>)
    requires EdgeOf(raw, Named(es, EdgeId), ids) == Ok(edge)
    requires Named(es, EdgeId) == (set r | r in front :: EdgeIdOf(r))
    ensures Named(Appended(es, edge), EdgeId) == Named(es, EdgeId) + {EdgeIdOf(raw)}
    ensures edge.Some? ==> FirstOf(edge.value, front + [raw])
  {
    hide Strip;
    if edge.Some? {
      NamedStep(es, edge.value, EdgeId);
      assert edge.value == Joined((front + [raw])[|front|]);
      forall j | 0 <= j < |front|
        ensures EdgeIdOf((front + [raw])[j]) != EdgeIdOf(raw)
      {
        assert front[j] in front;
      }
    }
  }

  // Every raw edge is represented by the first one with its id, and nothing else is there.
  lemma {:induction false} EdgesKeep(raws: seq<Dict>, ids: set<string>)
    requires EdgesOf(raws, ids).Ok?
    ensures Named(EdgesOf(raws, ids).value, EdgeId) == (set raw | raw in raws :: EdgeIdOf(raw))
    ensures forall e :: e in EdgesOf(raws, ids).value ==> FirstOf(e, raws)
  {
    hide EdgeOf, FirstOf, EdgeIdOf;
    if |raws| > 0 {
      var front, raw := raws[..|raws| - 1], raws[|raws| - 1];
      EdgesKeep(front, ids);
      var es := EdgesOf(front, ids).value;
      var edge := EdgeOf(raw, Named(es, EdgeId), ids).value;
      assert (set r | r in raws :: EdgeIdOf(r)) == (set r | r in front :: EdgeIdOf(r)) + {EdgeIdOf(raw)} by {
        assert raws == front + [raw];
      }
      EdgeNamed(es, front, raw, edge, ids);
      assert raws == front + [raw];
      forall e | e in EdgesOf(raws, ids).value
        ensures FirstOf(e, raws)
      {
        if e in es {
          FirstOfMore(e, front, raws);
        }
      }
    }
  }
}
