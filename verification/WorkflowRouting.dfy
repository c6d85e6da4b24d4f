// Steps, connections and lead routing of a workflow run
// (intelliguard/workflows/customer_support.py:29-108, 610-711).
module WorkflowRouting {
  import opened Outcomes
  import opened Json
  import opened WorkflowGraph
  import opened ManifestCompiler

  // --- Steps -------------------------------------------------------------------------

  // step.get("step_id") or step.get("agent_id")
  function StepName(step: Dict): Value {
    Or(Get(step, StepId), Get(step, AgentId))
  }

  // The node of that id, if it is not the lead node; of several, the last.
  function NodeFor(nodes: seq<Dict>, id: Value): Dict {
    if |nodes| == 0 then map[]
    else
      var n := nodes[|nodes| - 1];
      if Truthy(id) && id != String(LEAD_NODE_ID) && Get(n, NodeId) == id then n
      else NodeFor(nodes[..|nodes| - 1], id)
  }

  function Enriched(step: Dict, nodes: seq<Dict>): Dict {
    var node := NodeFor(nodes, StepName(step));
    (node + step)[StepId := StepName(step)]
                 [NodeType := Or(Or(Get(step, NodeType), Get(node, NodeType)), String("task_agent"))]
                 [ActivationPolicy := Or(Or(Get(step, ActivationPolicy), Get(node, ActivationPolicy)), String("conditional"))]
                 [ActivationStage := Or(Or(Get(step, ActivationStage), Get(node, ActivationStage)), String("routed"))]
  }

  function Steps(d: Definition): seq<Dict> {
    var nodes := if d.nodes.List? then Dicts(d.nodes.items) else [];
    seq(|d.steps|, i requires 0 <= i < |d.steps| => Enriched(d.steps[i], nodes))
  }

  // --- Connections --------------------------------------------------------------------

  // A connection before it is checked, and after.
  datatype RawLink = RawLink(source: Value, target: Value, id: Value, conditions: Value)

  datatype Link = Link(source: string, target: string, id: Value, conditions: Value)

  function LinkName(source: string, target: string): string {
    source + "->" + target
  }

  function NameOf(l: Link): string {
    LinkName(l.source, l.target)
  }

  // The string ids of steps, each once.
  function StepIds(steps: seq<Dict>): seq<string> {
    if |steps| == 0 then []
    else
      var front, name := StepIds(steps[..|steps| - 1]), StepName(steps[|steps| - 1]);
      if name.String? && name.s !in front then front + [name.s] else front
  }

  function EdgeLink(edge: Dict): RawLink {
    RawLink(Or(Get(edge, FromNodeId), Get(edge, From)), Or(Get(edge, ToNodeId), Get(edge, To)),
            Get(edge, EdgeId), Or(Get(edge, Conditions), Object(map[], "{}")))
  }

  function VisualLink(item: Dict): RawLink {
    RawLink(Get(item, From), Get(item, To), Get(item, Id), Get(item, Conditions))
  }

  // The connections the definition gives, if it gives any kind of list of them.
  function RawLinks(d: Definition): Option<seq<RawLink>> {
    if NonEmptyList(d.edges) then
      var edges := Dicts(d.edges.items);
      Some(seq(|edges|, i requires 0 <= i < |edges| => EdgeLink(edges[i])))
    else if VisualConnections in DictOrEmpty(d.metadata) then
      var visual := DictOrEmpty(d.metadata)[VisualConnections];
      var items := if visual.List? then Dicts(visual.items) else [];
      Some(seq(|items|, i requires 0 <= i < |items| => VisualLink(items[i])))
    else None
  }

  predicate Acceptable(l: RawLink, valid: set<string>) {
    && l.source.String? && l.target.String? && l.source != l.target
    && l.target != String(LEAD_NODE_ID)
    && l.source.s in valid && l.target.s in valid
  }

  function Accepted(l: RawLink): Link
    requires l.source.String? && l.target.String?
  {
    Link(l.source.s, l.target.s, Or(l.id, String(LinkName(l.source.s, l.target.s))), Or(l.conditions, Object(map[], "{}")))
  }

  // The acceptable links.
  function Filtered(ls: seq<RawLink>, valid: set<string>): seq<Link> {
    if |ls| == 0 then []
    else Filtered(ls[..|ls| - 1], valid) + (if Acceptable(ls[|ls| - 1], valid) then [Accepted(ls[|ls| - 1])] else [])
  }

  function Names(ls: seq<Link>): set<string> {
    set l | l in ls :: NameOf(l)
  }

  // The first link of each name, in order.
  function ByName(ls: seq<Link>): seq<Link> {
    if |ls| == 0 then []
    else
      var front := ByName(ls[..|ls| - 1]);
      if NameOf(ls[|ls| - 1]) in Names(front) then front else front + [ls[|ls| - 1]]
  }

  function FanOut(ids: seq<string>): seq<Link> {
    seq(|ids|, i requires 0 <= i < |ids| => Link(LEAD_NODE_ID, ids[i], String(LinkName(LEAD_NODE_ID, ids[i])), Object(map[], "{}")))
  }

  function ValidIds(steps: seq<Dict>): set<string> {
    {LEAD_NODE_ID} + (set id | id in StepIds(steps))
  }

  function Connections(d: Definition, steps: seq<Dict>): seq<Link> {
    match RawLinks(d)
    case Some(ls) => ByName(Filtered(ls, ValidIds(steps)))
    case None => FanOut(StepIds(steps))
  }

  lemma NothingLinked(valid: set<string>)
    ensures ByName(Filtered([], valid)) == [] && Names([]) == {}
  {
  }

  lemma ByNameStep(ls: seq<Link>, l: Link)
    ensures ByName(ls + [l]) == if NameOf(l) in Names(ByName(ls)) then ByName(ls) else ByName(ls) + [l]
  {
    assert (ls + [l])[..|ls|] == ls;
  }

  // What one round of the loop adds.
  lemma LinkRound(ls: seq<RawLink>, l: RawLink, valid: set<string>)
    ensures Acceptable(l, valid) ==> l.source.String? && l.target.String?
    ensures var sofar := ByName(Filtered(ls, valid));
            ByName(Filtered(ls + [l], valid)) ==
            if Acceptable(l, valid) && NameOf(Accepted(l)) !in Names(sofar) then sofar + [Accepted(l)] else sofar
  {
    hide Names, Accepted;
    assert (ls + [l])[..|ls|] == ls;
    if Acceptable(l, valid) {
      ByNameStep(Filtered(ls, valid), Accepted(l));
    } else {
      assert Filtered(ls, valid) + [] == Filtered(ls, valid);
    }
  }

  lemma NamesStep(ls: seq<Link>, l: Link)
    ensures Names(ls + [l]) == Names(ls) + {NameOf(l)}
  {
  }

  // The loop over the raw connections.
  method Checked(ls: seq<RawLink>, valid: set<string>) returns (connections: seq<Link>)
    ensures connections == ByName(Filtered(ls, valid))
  {
    hide ByName, Filtered, Acceptable, NameOf, Names;
    NothingLinked(valid);
    var seen: set<string> := {};
    connections := [];
    for i := 0 to |ls|
      invariant connections == ByName(Filtered(ls[..i], valid))
      invariant seen == Names(connections)
    {
      LinkRound(ls[..i], ls[i], valid);
      assert ls[..i + 1] == ls[..i] + [ls[i]];
      if Acceptable(ls[i], valid) {
        var link := Accepted(ls[i]);
        if NameOf(link) !in seen {
          NamesStep(connections, link);
          seen := seen + {NameOf(link)};
          connections := connections + [link];
        }
      }
    }
    assert ls[..|ls|] == ls;
  }

  method WorkflowConnections(d: Definition, steps: seq<Dict>) returns (connections: seq<Link>)
    ensures connections == Connections(d, steps)
  {
    var ids: seq<string> := [];
    for i := 0 to |steps|
      invariant ids == StepIds(steps[..i])
    {
      assert steps[..i + 1][..i] == steps[..i];
      var name := StepName(steps[i]);
      if name.String? && name.s !in ids {
        ids := ids + [name.s];
      }
    }
    assert steps[..|steps|] == steps;
    var raw := RawLinks(d);
    if raw.None? {
      return FanOut(ids);
    }
    connections := Checked(raw.value, {LEAD_NODE_ID} + (set id | id in ids));
  }

  // The sources of the connections into a node, in order.
  function Sources(connections: seq<Link>, target: string): seq<string> {
    if |connections| == 0 then []
    else
      var l := connections[|connections| - 1];
      Sources(connections[..|connections| - 1], target) + (if l.target == target then [l.source] else [])
  }

  lemma NoSources()
    ensures forall t :: Sources([], t) == []
  {
  }

  lemma SourcesStep(connections: seq<Link>, i: nat, target: string)
    requires i < |connections|
    ensures Sources(connections[..i + 1], target) ==
            Sources(connections[..i], target) + (if connections[i].target == target then [connections[i].source] else [])
  {
    assert connections[..i + 1][..i] == connections[..i];
  }

  method IncomingConnections(connections: seq<Link>) returns (incoming: map<string, seq<string>>)
    ensures forall t :: t in incoming <==> Sources(connections, t) != []
    ensures forall t :: t in incoming ==> incoming[t] == Sources(connections, t)
  {
    hide Sources;
    incoming := map[];
    NoSources();
    for i := 0 to |connections|
      invariant forall t :: t in incoming ==> incoming[t] != []
      invariant forall t :: (if t in incoming then incoming[t] else []) == Sources(connections[..i], t)
    {
      var l := connections[i];
      var sofar := if l.target in incoming then incoming[l.target] else [];
      forall t
        ensures Sources(connections[..i + 1], t) == Sources(connections[..i], t) + (if l.target == t then [l.source] else [])
      {
        SourcesStep(connections, i, t);
      }
      incoming := incoming[l.target := sofar + [l.source]];
    }
    assert connections[..|connections|] == connections;
  }

  // --- Routing ---------------------------------------------------------------------------

  predicate Contains(text: string, part: string) {
    part <= text || (|text| > 0 && Contains(text[1..], part))
  }

  // A conditional node matches if it has no keywords or one of them is in the query;
  // lower() is given.
  predicate ConditionalMatches(step: Dict, query: string, lower: string -> string) {
    var keywords := Or(Get(DictOrEmpty(Get(step, Conditions)), Keywords), Get(step, ActivationKeywords));
    !NonEmptyList(keywords)
    || exists i | 0 <= i < |keywords.items| :: Contains(lower(query), lower(Shown(keywords.items[i])))
  }

  function Policy(step: Dict): Value {
    Or(Get(step, ActivationPolicy), String("conditional"))
  }

  predicate Activates(step: Dict, query: string, lower: string -> string) {
    if Policy(step) == String("conditional") then ConditionalMatches(step, query, lower)
    else Policy(step) in {String("always"), String("human_required"), String("on_risk")}
  }

  // A required node is activated whatever the query is.
  predicate Required(step: Dict) {
    Policy(step) in {String("always"), String("human_required")}
  }

  lemma RequiredActivates(step: Dict, query: string, lower: string -> string)
    ensures Required(step) ==> Activates(step, query, lower)
  {
  }

  function Selected(steps: seq<Dict>, query: string, lower: string -> string): seq<Dict> {
    if |steps| == 0 then []
    else
      var last := steps[|steps| - 1];
      Selected(steps[..|steps| - 1], query, lower) + (if Activates(last, query, lower) then [last] else [])
  }

  predicate Used(l: Link, selected: seq<Dict>) {
    && (exists s :: s in selected && StepName(s) == String(l.target))
    && (l.source == LEAD_NODE_ID || exists s :: s in selected && StepName(s) == String(l.source))
  }

  function UsedLinks(connections: seq<Link>, selected: seq<Dict>): seq<Link> {
    if |connections| == 0 then []
    else
      var l := connections[|connections| - 1];
      UsedLinks(connections[..|connections| - 1], selected) + (if Used(l, selected) then [l] else [])
  }

  method LeadRouting(steps: seq<Dict>, connections: seq<Link>, query: string, lower: string -> string)
      returns (selected: seq<Dict>, skipped: seq<Dict>, required: seq<Dict>, handoffs: seq<Link>)
    ensures selected == Selected(steps, query, lower)
    ensures forall s :: s in required <==> s in steps && Required(s)
    ensures forall s :: s in skipped <==> s in steps && !Activates(s, query, lower)
    ensures handoffs == UsedLinks(connections, selected)
  {
    hide Activates, Policy;
    selected, skipped, required := [], [], [];
    for i := 0 to |steps|
      invariant selected == Selected(steps[..i], query, lower)
      invariant forall s :: s in skipped <==> s in steps[..i] && !Activates(s, query, lower)
      invariant forall s :: s in required <==> s in steps[..i] && Required(s)
    {
      assert steps[..i + 1][..i] == steps[..i];
      assert steps[..i + 1] == steps[..i] + [steps[i]];
      if Activates(steps[i], query, lower) {
        selected := selected + [steps[i]];
        if Required(steps[i]) {
          required := required + [steps[i]];
        }
      } else {
        RequiredActivates(steps[i], query, lower);
        skipped := skipped + [steps[i]];
      }
    }
    assert steps[..|steps|] == steps;
    handoffs := [];
    for i := 0 to |connections|
      invariant handoffs == UsedLinks(connections[..i], selected)
    {
      assert connections[..i + 1][..i] == connections[..i];
      if Used(connections[i], selected) {
        handoffs := handoffs + [connections[i]];
      }
    }
    assert connections[..|connections|] == connections;
  }
}
