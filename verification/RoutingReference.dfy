// What the engine makes of any definition, field by field: its steps, its connections, and
// which steps a query activates (intelliguard/workflows/customer_support.py:29-108, 610-711).
module RoutingReference {
  import opened Outcomes
  import opened Json
  import opened WorkflowGraph
  import opened ManifestCompiler
  import opened WorkflowRouting
  import opened Ref = GraphReference

  // --- Activation -----------------------------------------------------------------------------

  ghost predicate OccursAt(part: string, text: string, i: nat) {
    i + |part| <= |text| && text[i..i + |part|] == part
  }

  ghost predicate Occurs(part: string, text: string) {
    exists i: nat :: OccursAt(part, text, i)
  }

  // The keywords of a step: those of its conditions, or else its activation keywords.
  ghost function KeywordsOf(step: Dict): Value {
    if Conditions in step && step[Conditions].Object? && Has(step[Conditions].fields, Keywords) then
      step[Conditions].fields[Keywords]
    else Entry(step, ActivationKeywords)
  }

  ghost predicate Mentions(query: string, lower: string -> string, v: Value) {
    Occurs(lower(TextOf(v)), lower(query))
  }

  // The query activates the step: its policy is not conditional, or it has no keywords, or
  // the query mentions one of them.
  ghost predicate Acts(step: Dict, query: string, lower: string -> string) {
    var policy, words := ValueAt(step, ActivationPolicy, String("conditional")), KeywordsOf(step);
    || policy == String("always") || policy == String("human_required") || policy == String("on_risk")
    || (policy == String("conditional") && (FilledList(words) ==> exists v :: v in words.items && Mentions(query, lower, v)))
  }

  lemma {:induction false} ContainsMeans(text: string, part: string)
    ensures Contains(text, part) <==> Occurs(part, text)
  {
    if part <= text {
      assert OccursAt(part, text, 0);
    } else if |text| > 0 {
      ContainsMeans(text[1..], part);
      if Contains(text[1..], part) {
        var i: nat :| OccursAt(part, text[1..], i);
        assert text[i + 1..i + 1 + |part|] == text[1..][i..i + |part|];
        assert OccursAt(part, text, i + 1);
      }
      if Occurs(part, text) {
        var i: nat :| OccursAt(part, text, i);
        assert i > 0 by {
          assert text[..|part|] == part ==> part <= text;
        }
        assert text[1..][i - 1..i - 1 + |part|] == text[i..i + |part|];
        assert OccursAt(part, text[1..], i - 1);
      }
    }
  }

  lemma NothingHas(k: Key)
    ensures !Has(map[], k)
  {
  }

  lemma KeywordsMean(step: Dict)
    ensures Or(Get(DictOrEmpty(Get(step, Conditions)), Keywords), Get(step, ActivationKeywords)) == KeywordsOf(step)
  {
    hide Has, Or;
    ValueMeans(DictOrEmpty(Get(step, Conditions)), Keywords, Get(step, ActivationKeywords));
    NothingHas(Keywords);
  }

  lemma ActivatesIff(step: Dict, query: string, lower: string -> string)
    ensures Activates(step, query, lower) <==> Acts(step, query, lower)
    ensures Required(step) <==>
            ValueAt(step, ActivationPolicy, String("conditional")) in {String("always"), String("human_required")}
  {
    hide Or, Get, Has, ValueAt, Contains, Occurs, KeywordsOf, Shown, TextOf;
    ValueMeans(step, ActivationPolicy, String("conditional"));
    KeywordsMean(step);
    forall v: Value
      ensures Contains(lower(query), lower(Shown(v))) <==> Mentions(query, lower, v)
    {
      ContainsMeans(lower(query), lower(Shown(v)));
      EmptyIff(v);
    }
    var words := KeywordsOf(step);
    if FilledList(words) {
      assert forall v :: v in words.items <==> exists i :: 0 <= i < |words.items| && words.items[i] == v;
    }
  }

  // The steps that act, in order.
  ghost function Acting(steps: seq<Dict>, query: string, lower: string -> string): seq<Dict> {
    if |steps| == 0 then []
    else
      var last := |steps| - 1;
      if Acts(steps[last], query, lower) then Acting(steps[..last], query, lower) + [steps[last]]
      else Acting(steps[..last], query, lower)
  }

  lemma {:induction false} SelectedAct(steps: seq<Dict>, query: string, lower: string -> string)
    ensures Selected(steps, query, lower) == Acting(steps, query, lower)
  {
    hide Activates, Acts;
    if |steps| > 0 {
      var last := |steps| - 1;
      SelectedAct(steps[..last], query, lower);
      ActivatesIff(steps[last], query, lower);
      assert Acting(steps[..last], query, lower) + [] == Acting(steps[..last], query, lower);
    }
  }

  // --- Steps ------------------------------------------------------------------------------------

  // Node i is the last one of that id.
  ghost predicate LastNamed(nodes: seq<Dict>, name: Value, i: nat) {
    i < |nodes| && Entry(nodes[i], NodeId) == name && forall j :: i < j < |nodes| ==> Entry(nodes[j], NodeId) != name
  }

  // The node whose fields the step gets; the lead node lends none.
  ghost predicate Behind(nodes: seq<Dict>, name: Value, node: Dict) {
    if !Empty(name) && name != String("lead") && exists i: nat :: LastNamed(nodes, name, i) then
      exists i: nat :: LastNamed(nodes, name, i) && nodes[i] == node
    else node == map[]
  }

  const SETTLED := {StepId, NodeType, ActivationPolicy, ActivationStage}

  // The step with the fields of its node, and defaults for its type and activation.
  ghost predicate IsStepWith(e: Dict, step: Dict, node: Dict) {
    && e.Keys == node.Keys + step.Keys + SETTLED
    && (forall k :: k in e && k !in SETTLED ==> e[k] == if k in step then step[k] else Entry(node, k))
    && e[StepId] == StepKey(step)
    && e[NodeType] == ValueAt(step, NodeType, ValueAt(node, NodeType, String("task_agent")))
    && e[ActivationPolicy] == ValueAt(step, ActivationPolicy, ValueAt(node, ActivationPolicy, String("conditional")))
    && e[ActivationStage] == ValueAt(step, ActivationStage, ValueAt(node, ActivationStage, String("routed")))
  }

  lemma LastNamedSnoc(nodes: seq<Dict>, n: Dict, name: Value)
    ensures Entry(n, NodeId) == name ==> LastNamed(nodes + [n], name, |nodes|)
    ensures Entry(n, NodeId) != name ==> forall i: nat :: LastNamed(nodes + [n], name, i) <==> LastNamed(nodes, name, i)
  {
    var all := nodes + [n];
    if Entry(n, NodeId) != name {
      forall i: nat
        ensures LastNamed(all, name, i) <==> LastNamed(nodes, name, i)
      {
        assert forall j :: 0 <= j < |nodes| ==> all[j] == nodes[j];
        assert all[|nodes|] == n;
      }
    }
  }

  lemma NoneNamed(name: Value)
    ensures !exists i: nat :: LastNamed([], name, i)
  {
  }

  lemma NamedWithin(nodes: seq<Dict>, name: Value)
    ensures forall i: nat :: LastNamed(nodes, name, i) ==> i < |nodes|
  {
  }

  lemma {:induction false} NodeForMeans(nodes: seq<Dict>, name: Value)
    ensures Behind(nodes, name, NodeFor(nodes, name))
  {
    hide Empty, Truthy, LastNamed, Entry;
    EmptyIff(name);
    if |nodes| == 0 {
      NoneNamed(name);
    } else {
      var front, n := nodes[..|nodes| - 1], nodes[|nodes| - 1];
      NodeForMeans(front, name);
      LastNamedSnoc(front, n, name);
      ValueMeans(n, NodeId, Null);
      assert nodes == front + [n];
      assert forall i: nat :: LastNamed(front, name, i) ==> i < |front| by { NamedWithin(front, name); }
    }
  }

  lemma OrItself(a: Dict, k: Key, v: Value)
    requires Has(a, k)
    ensures Or(a[k], v) == a[k]
  {
    EmptyIff(a[k]);
  }

  lemma EitherMeans(a: Dict, b: Dict, k: Key, v: Value)
    ensures Or(Or(Get(a, k), Get(b, k)), v) == ValueAt(a, k, ValueAt(b, k, v))
  {
    hide Or, Get, Has;
    if Has(a, k) {
      ValueMeans(a, k, Get(b, k));
      OrItself(a, k, v);
    } else {
      ValueMeans(a, k, Get(b, k));
      ValueMeans(b, k, v);
    }
  }

  lemma EnrichedKeeps(step: Dict, nodes: seq<Dict>)
    ensures var e, node := Enriched(step, nodes), NodeFor(nodes, StepName(step));
            && e.Keys == node.Keys + step.Keys + SETTLED
            && forall k :: k in e && k !in SETTLED ==> e[k] == if k in step then step[k] else Entry(node, k)
  {
    hide Or, Get, NodeFor;
  }

  lemma EnrichedMeans(step: Dict, nodes: seq<Dict>)
    ensures exists node :: Behind(nodes, StepKey(step), node) && IsStepWith(Enriched(step, nodes), step, node)
  {
    hide Or, Get, Has, ValueAt, NodeFor, Behind;
    ValueMeans(step, AgentId, Null);
    ValueMeans(step, StepId, Entry(step, AgentId));
    var node := NodeFor(nodes, StepName(step));
    NodeForMeans(nodes, StepName(step));
    EnrichedKeeps(step, nodes);
    EitherMeans(step, node, NodeType, String("task_agent"));
    EitherMeans(step, node, ActivationPolicy, String("conditional"));
    EitherMeans(step, node, ActivationStage, String("routed"));
    assert IsStepWith(Enriched(step, nodes), step, node);
  }

  ghost predicate ReadWith(step: Dict, given: Dict, nodes: seq<Dict>) {
    exists node :: Behind(nodes, StepKey(given), node) && IsStepWith(step, given, node)
  }

  // The steps of the engine are those of the definition, in order, each with the fields of
  // the node of its id.
  lemma StepsMean(d: Definition)
    ensures |Steps(d)| == |d.steps|
    ensures forall i :: 0 <= i < |d.steps| ==>
              ReadWith(Steps(d)[i], d.steps[i], if d.nodes.List? then DictsIn(d.nodes.items) else [])
  {
    hide Enriched, Behind, IsStepWith, StepKey;
    if d.nodes.List? {
      DictsMean(d.nodes.items);
    }
    forall i | 0 <= i < |d.steps|
      ensures ReadWith(Steps(d)[i], d.steps[i], if d.nodes.List? then DictsIn(d.nodes.items) else [])
    {
      EnrichedMeans(d.steps[i], if d.nodes.List? then DictsIn(d.nodes.items) else []);
    }
  }

  // --- Connections ------------------------------------------------------------------------------

  // The ids of the steps that are strings, each once, in order.
  ghost function Ids(steps: seq<Dict>): seq<string> {
    if |steps| == 0 then []
    else
      var front, name := Ids(steps[..|steps| - 1]), StepKey(steps[|steps| - 1]);
      if name.String? && forall i :: 0 <= i < |front| ==> front[i] != name.s then front + [name.s] else front
  }

  // The ends and the id a definition gives a connection: an edge of its graph, or a
  // connection of its editor.
  ghost function SourceAt(d: Dict, visual: bool): Value {
    if visual then Entry(d, From) else ValueAt(d, FromNodeId, Entry(d, From))
  }

  ghost function TargetAt(d: Dict, visual: bool): Value {
    if visual then Entry(d, To) else ValueAt(d, ToNodeId, Entry(d, To))
  }

  // It connects two steps, or the lead with a step.
  ghost predicate Connects(d: Dict, visual: bool, ids: seq<string>) {
    var source, target := SourceAt(d, visual), TargetAt(d, visual);
    && source.String? && target.String? && source.s != target.s
    && (source.s == "lead" || source.s in ids) && target.s != "lead" && target.s in ids
  }

  ghost function ConnectionOf(d: Dict, visual: bool): Link
    requires SourceAt(d, visual).String? && TargetAt(d, visual).String?
  {
    var source, target := SourceAt(d, visual).s, TargetAt(d, visual).s;
    Link(source, target, ValueAt(d, if visual then Id else EdgeId, String(source + "->" + target)),
         ValueAt(d, Conditions, Object(map[], "{}")))
  }

  ghost predicate SameText(a: Link, b: Link) {
    a.source + "->" + a.target == b.source + "->" + b.target
  }

  // The connections among these, without those whose text an earlier one has.
  ghost function Connecting(ds: seq<Dict>, visual: bool, ids: seq<string>): seq<Link> {
    if |ds| == 0 then []
    else
      var front, d := Connecting(ds[..|ds| - 1], visual, ids), ds[|ds| - 1];
      if Connects(d, visual, ids) && forall l :: l in front ==> !SameText(l, ConnectionOf(d, visual)) then
        front + [ConnectionOf(d, visual)]
      else front
  }

  // The connections of a definition: the edges of its graph, or else those of its editor, if
  // it has any; otherwise every step hangs under the lead.
  ghost predicate AreConnections(d: Definition, steps: seq<Dict>, cs: seq<Link>) {
    var ids := Ids(steps);
    if FilledList(d.edges) then cs == Connecting(DictsIn(d.edges.items), false, ids)
    else if d.metadata.Object? && VisualConnections in d.metadata.fields then
      var visual := d.metadata.fields[VisualConnections];
      cs == Connecting(if visual.List? then DictsIn(visual.items) else [], true, ids)
    else
      && |cs| == |ids|
      && forall i :: 0 <= i < |ids| ==> cs[i] == Link("lead", ids[i], String("lead->" + ids[i]), Object(map[], "{}"))
  }

  lemma {:induction false} IdsMean(steps: seq<Dict>)
    ensures StepIds(steps) == Ids(steps)
  {
    hide Or, Get, Has, ValueAt;
    if |steps| > 0 {
      var step := steps[|steps| - 1];
      IdsMean(steps[..|steps| - 1]);
      ValueMeans(step, AgentId, Null);
      ValueMeans(step, StepId, Entry(step, AgentId));
    }
  }

  lemma EmptyDict()
    ensures Empty(Object(map[], "{}")) && !Truthy(Object(map[], "{}"))
  {
  }

  lemma ConditionsTwice(d: Dict)
    ensures Or(Or(Get(d, Conditions), Object(map[], "{}")), Object(map[], "{}")) == ValueAt(d, Conditions, Object(map[], "{}"))
  {
    ValueMeans(d, Conditions, Object(map[], "{}"));
    EmptyDict();
    if Has(d, Conditions) {
      EmptyIff(d[Conditions]);
    }
  }

  lemma RawLinkMeans(d: Dict, visual: bool, ids: seq<string>, valid: set<string>)
    requires forall id :: id in valid <==> id == "lead" || id in ids
    ensures var l := if visual then VisualLink(d) else EdgeLink(d);
            && (Acceptable(l, valid) <==> Connects(d, visual, ids))
            && (Connects(d, visual, ids) ==> Accepted(l) == ConnectionOf(d, visual))
  {
    hide Or, Get, Has, ValueAt, Entry;
    ValueMeans(d, From, Null);
    ValueMeans(d, To, Null);
    ValueMeans(d, FromNodeId, Entry(d, From));
    ValueMeans(d, ToNodeId, Entry(d, To));
    ConditionsTwice(d);
    ValueMeans(d, Conditions, Object(map[], "{}"));
    if Connects(d, visual, ids) {
      var id := String(SourceAt(d, visual).s + "->" + TargetAt(d, visual).s);
      ValueMeans(d, Id, id);
      ValueMeans(d, EdgeId, id);
    }
  }

  lemma NamesAreTexts(a: Link, b: Link)
    ensures NameOf(a) == NameOf(b) <==> SameText(a, b)
  {
  }

  lemma {:induction false} ConnectingMeans(ds: seq<Dict>, ls: seq<RawLink>, visual: bool, ids: seq<string>, valid: set<string>)
    requires forall id :: id in valid <==> id == "lead" || id in ids
    requires |ls| == |ds| && forall i :: 0 <= i < |ds| ==> ls[i] == if visual then VisualLink(ds[i]) else EdgeLink(ds[i])
    ensures ByName(Filtered(ls, valid)) == Connecting(ds, visual, ids)
  {
    hide Acceptable, Accepted, Connects, ConnectionOf, NameOf, VisualLink, EdgeLink, ByName, Filtered;
    if |ds| == 0 {
      NothingLinked(valid);
      assert ls == [];
    } else {
      var last := |ds| - 1;
      ConnectingMeans(ds[..last], ls[..last], visual, ids, valid);
      RawLinkMeans(ds[last], visual, ids, valid);
      LinkRound(ls[..last], ls[last], valid);
      assert ls == ls[..last] + [ls[last]];
      forall a: Link, b: Link
        ensures NameOf(a) == NameOf(b) <==> SameText(a, b)
      {
        NamesAreTexts(a, b);
      }
    }
  }

  lemma FanOutMeans(ids: seq<string>)
    ensures |FanOut(ids)| == |ids|
    ensures forall i :: 0 <= i < |ids| ==> FanOut(ids)[i] == Link("lead", ids[i], String("lead->" + ids[i]), Object(map[], "{}"))
  {
    forall i | 0 <= i < |ids|
      ensures FanOut(ids)[i] == Link("lead", ids[i], String("lead->" + ids[i]), Object(map[], "{}"))
    {
      assert LinkName(LEAD_NODE_ID, ids[i]) == "lead->" + ids[i];
    }
  }

  lemma ConnectionsMean(d: Definition, steps: seq<Dict>)
    ensures AreConnections(d, steps, Connections(d, steps))
  {
    hide StepIds, Ids, ByName, Filtered, Connecting, EdgeLink, VisualLink;
    var ids, valid := Ids(steps), ValidIds(steps);
    IdsMean(steps);
    if FilledList(d.edges) {
      DictsMean(d.edges.items);
      ConnectingMeans(DictsIn(d.edges.items), RawLinks(d).value, false, ids, valid);
    } else if d.metadata.Object? && VisualConnections in d.metadata.fields {
      var visual := d.metadata.fields[VisualConnections];
      if visual.List? {
        DictsMean(visual.items);
      }
      ConnectingMeans(if visual.List? then DictsIn(visual.items) else [], RawLinks(d).value, true, ids, valid);
    } else {
      FanOutMeans(ids);
    }
  }

  // --- Handoffs ------------------------------------------------------------------------------------

  // The connection is used: its target is selected, and its source too, unless it is the lead.
  ghost predicate HandsOff(l: Link, selected: seq<Dict>) {
    && (exists s :: s in selected && StepKey(s) == String(l.target))
    && (l.source == "lead" || exists s :: s in selected && StepKey(s) == String(l.source))
  }

  lemma UsedIff(l: Link, selected: seq<Dict>)
    ensures Used(l, selected) <==> HandsOff(l, selected)
  {
    hide Or, Get, Has, ValueAt, Entry;
    forall s: Dict
      ensures StepName(s) == StepKey(s)
    {
      ValueMeans(s, AgentId, Null);
      ValueMeans(s, StepId, Entry(s, AgentId));
    }
  }

  lemma {:induction false} HandoffsMean(connections: seq<Link>, selected: seq<Dict>)
    ensures forall l :: l in UsedLinks(connections, selected) <==> l in connections && HandsOff(l, selected)
  {
    hide Used, HandsOff;
    if |connections| > 0 {
      var front, l := connections[..|connections| - 1], connections[|connections| - 1];
      HandoffsMean(front, selected);
      UsedIff(l, selected);
      assert connections == front + [l];
    }
  }
}
