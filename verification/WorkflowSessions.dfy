// The sessions and decisions of a workflow run: the step loop of the engine
// (intelliguard/workflows/customer_support.py:280-522, persistence/store.py:2319-2361).
module WorkflowSessions {
  import opened Outcomes
  import opened Json
  import opened WorkflowGraph
  import opened WorkflowRouting

  datatype Decision = ALLOW | REVIEW | BLOCK

  // A row of the session links; sessions are numbered as they are made, since all that
  // matters of their ids is that they are new. The lead session has no step.
  datatype SessionLink = SessionLink(session: nat, parent: Option<nat>, sequence: nat, step: Option<Value>)

  // BLOCK if it is there, else REVIEW if it is there, else ALLOW.
  function Join(decisions: seq<Decision>): Decision {
    if BLOCK in decisions then BLOCK else if REVIEW in decisions then REVIEW else ALLOW
  }

  datatype StepResult = StepResult(step: Value, tool: bool, decision: Decision)

  function Decisions(rs: seq<StepResult>): seq<Decision> {
    seq(|rs|, i requires 0 <= i < |rs| => rs[i].decision)
  }

  // --- One step ------------------------------------------------------------------------

  // A step without an agent is passed over.
  predicate Runs(step: Dict) {
    Truthy(Get(step, AgentId))
  }

  predicate IsTool(step: Dict) {
    Truthy(Get(step, ToolName))
  }

  // incoming_by_step.get(step_id, ["lead"])
  function ConnectedFrom(connections: seq<Link>, step: Dict): seq<string> {
    if StepName(step).String? && Sources(connections, StepName(step).s) != [] then Sources(connections, StepName(step).s)
    else [LEAD_NODE_ID]
  }

  // The session a step id has by now: that of its last link.
  function SessionOf(links: seq<SessionLink>, step: Value): (s: Option<nat>)
    ensures s.Some? ==> exists l :: l in links && l.session == s.value && l.step == Some(step)
  {
    if |links| == 0 then None
    else if links[|links| - 1].step == Some(step) then Some(links[|links| - 1].session)
    else SessionOf(links[..|links| - 1], step)
  }

  // The first upstream node that has a session; otherwise the lead session, which is 0.
  function ParentOf(links: seq<SessionLink>, upstream: seq<string>): nat {
    if |upstream| == 0 then 0
    else if upstream[0] != LEAD_NODE_ID && SessionOf(links, String(upstream[0])).Some? then SessionOf(links, String(upstream[0])).value
    else ParentOf(links, upstream[1..])
  }

  // func.coalesce(func.max(sequence), 0)
  function MaxSequence(links: seq<SessionLink>): nat {
    if |links| == 0 then 0
    else
      var m := MaxSequence(links[..|links| - 1]);
      if links[|links| - 1].sequence > m then links[|links| - 1].sequence else m
  }

  // What the loop has done so far.
  datatype Progress = Progress(links: seq<SessionLink>, results: seq<StepResult>)

  function NewLink(links: seq<SessionLink>, parent: Option<nat>, step: Option<Value>): SessionLink {
    SessionLink(|links|, parent, MaxSequence(links) + 1, step)
  }

  const START := Progress([NewLink([], None, None)], [])

  // One round; outcome is what the governed tool call ends with, if the step has a tool.
  function Advance(p: Progress, connections: seq<Link>, step: Dict, outcome: Decision): Progress {
    if !Runs(step) then p
    else
      var parent := ParentOf(p.links, ConnectedFrom(connections, step));
      var decision := if IsTool(step) then outcome else Join(Decisions(p.results));
      Progress(p.links + [NewLink(p.links, Some(parent), Some(StepName(step)))],
               p.results + [StepResult(StepName(step), IsTool(step), decision)])
  }

  function RunAll(connections: seq<Link>, steps: seq<Dict>, outcomes: seq<Decision>): Progress
    requires |outcomes| == |steps|
  {
    if |steps| == 0 then START
    else Advance(RunAll(connections, steps[..|steps| - 1], outcomes[..|outcomes| - 1]), connections,
                 steps[|steps| - 1], outcomes[|outcomes| - 1])
  }

  // --- The tree ----------------------------------------------------------------------------------

  // Sessions are numbered from 0 and sequences from 1.
  ghost predicate Numbered(links: seq<SessionLink>) {
    forall i :: 0 <= i < |links| ==> links[i].session == i && links[i].sequence == i + 1
  }

  lemma {:induction false} NumberedNew(links: seq<SessionLink>)
    requires Numbered(links)
    ensures MaxSequence(links) == |links|
    ensures !exists l :: l in links && l.session == |links|
  {
    if |links| > 0 {
      NumberedNew(links[..|links| - 1]);
    }
  }

  lemma SessionsStep(links: seq<SessionLink>, parent: Option<nat>, step: Value)
    ensures forall v: Value :: SessionOf(links + [NewLink(links, parent, Some(step))], v) ==
                               if v == step then Some(|links|) else SessionOf(links, v)
  {
    hide MaxSequence;
    forall v: Value
      ensures SessionOf(links + [NewLink(links, parent, Some(step))], v) == if v == step then Some(|links|) else SessionOf(links, v)
    {
      assert (links + [NewLink(links, parent, Some(step))])[..|links|] == links;
    }
  }

  // A step of this id was linked before link i.
  ghost predicate Ran(links: seq<SessionLink>, i: nat, id: string)
    requires i <= |links|
  {
    exists p :: 0 <= p < i && links[p].step == Some(String(id))
  }

  // Link p is the last before link i of a step of this id.
  ghost predicate LastOf(links: seq<SessionLink>, i: nat, id: string, p: nat)
    requires i <= |links|
  {
    && p < i && links[p].step == Some(String(id))
    && forall q :: p < q < i ==> links[q].step != Some(String(id))
  }

  // The connection leads from a step that ran earlier to the step of link i.
  ghost predicate Feeds(links: seq<SessionLink>, i: nat, l: Link)
    requires i < |links|
  {
    links[i].step == Some(String(l.target)) && l.source != "lead" && Ran(links, i, l.source)
  }

  ghost predicate FirstToFeed(links: seq<SessionLink>, connections: seq<Link>, i: nat, k: nat)
    requires i < |links|
  {
    && k < |connections| && Feeds(links, i, connections[k])
    && forall j :: 0 <= j < k ==> !Feeds(links, i, connections[j])
  }

  ghost predicate Fed(links: seq<SessionLink>, connections: seq<Link>, i: nat, parent: nat)
    requires i < |links|
  {
    && (parent == 0 <==> forall l :: l in connections ==> !Feeds(links, i, l))
    && (parent != 0 ==>
          exists k: nat :: FirstToFeed(links, connections, i, k) && LastOf(links, i, connections[k].source, parent))
  }

  // The parent of a link is the last link of the step that the first connection into it
  // from a step that ran earlier comes from; the lead session, 0, iff there is no such
  // connection.
  ghost predicate ParentFollows(links: seq<SessionLink>, connections: seq<Link>, i: nat)
    requires i < |links|
  {
    links[i].step.Some? && links[i].parent.Some? && Fed(links, connections, i, links[i].parent.value)
  }

  ghost predicate Tree(links: seq<SessionLink>, connections: seq<Link>) {
    && |links| > 0
    && Numbered(links)
    && links[0].parent.None? && links[0].step.None?
    && forall i :: 0 < i < |links| ==> ParentFollows(links, connections, i)
  }

  // The session of a step id is its last link.
  lemma {:induction false} SessionIsLast(links: seq<SessionLink>, id: string)
    requires Numbered(links) && (|links| > 0 ==> links[0].step.None?)
    ensures var s := SessionOf(links, String(id));
            && (s.Some? <==> Ran(links, |links|, id))
            && (s.Some? ==> s.value > 0 && LastOf(links, |links|, id, s.value))
  {
    if |links| > 0 && links[|links| - 1].step != Some(String(id)) {
      SessionIsLast(links[..|links| - 1], id);
    }
  }

  lemma {:induction false} ParentOfSnoc(links: seq<SessionLink>, upstream: seq<string>, id: string)
    requires Numbered(links) && (|links| > 0 ==> links[0].step.None?)
    ensures ParentOf(links, upstream + [id]) ==
            if ParentOf(links, upstream) != 0 then ParentOf(links, upstream)
            else if id != "lead" && SessionOf(links, String(id)).Some? then SessionOf(links, String(id)).value
            else 0
  {
    hide SessionOf, Numbered;
    if |upstream| == 0 {
      assert ParentOf(links, []) == 0;
      assert ([id] + [])[1..] == [];
      assert upstream + [id] == [id];
    } else {
      SessionIsLast(links, upstream[0]);
      ParentOfSnoc(links, upstream[1..], id);
      assert (upstream + [id])[1..] == upstream[1..] + [id];
    }
  }

  // One connection more.
  lemma FedSnoc(links: seq<SessionLink>, connections: seq<Link>, l: Link, i: nat, parent: nat, parent': nat)
    requires i < |links| && Fed(links, connections, i, parent)
    requires if parent != 0 then parent' == parent
             else if Feeds(links, i, l) then parent' != 0 && LastOf(links, i, l.source, parent')
             else parent' == 0
    ensures Fed(links, connections + [l], i, parent')
  {
    hide Feeds, LastOf;
    var more := connections + [l];
    assert forall x :: x in more <==> x in connections || x == l;
    if parent != 0 {
      var k: nat :| FirstToFeed(links, connections, i, k) && LastOf(links, i, connections[k].source, parent);
      assert FirstToFeed(links, more, i, k) && more[k] in more;
    } else if Feeds(links, i, l) {
      assert FirstToFeed(links, more, i, |connections|);
      assert more[|connections|] in more;
    }
  }

  lemma FedByNone(links: seq<SessionLink>, i: nat)
    requires i < |links|
    ensures Fed(links, [], i, 0)
  {
  }

  lemma NoParent(links: seq<SessionLink>)
    ensures ParentOf(links, []) == 0 && ParentOf(links, ["lead"]) == 0
  {
  }

  // A new link changes nothing before it.
  lemma RanStays(links: seq<SessionLink>, link: SessionLink, i: nat, id: string)
    requires i <= |links|
    ensures Ran(links + [link], i, id) <==> Ran(links, i, id)
    ensures forall p: nat :: LastOf(links + [link], i, id, p) <==> LastOf(links, i, id, p)
  {
    var more := links + [link];
    assert forall q :: 0 <= q < i ==> more[q] == links[q];
    if Ran(links, i, id) {
      var p :| 0 <= p < i && links[p].step == Some(String(id));
      assert more[p].step == Some(String(id));
    }
  }

  // What the loop over the upstream nodes finds for a new link.
  lemma {:induction false} ParentFound(links: seq<SessionLink>, connections: seq<Link>, link: SessionLink, target: string)
    requires Numbered(links) && |links| > 0 && links[0].step.None? && link.step == Some(String(target))
    ensures Fed(links + [link], connections, |links|, ParentOf(links, Sources(connections, target)))
  {
    hide SessionOf, Numbered, ParentOf, Ran, LastOf, Fed;
    if |connections| == 0 {
      NoParent(links);
      FedByNone(links + [link], |links|);
    } else {
      var front, l := connections[..|connections| - 1], connections[|connections| - 1];
      var before, after := ParentOf(links, Sources(front, target)), ParentOf(links, Sources(connections, target));
      ParentFound(links, front, link, target);
      ParentOfSnoc(links, Sources(front, target), l.source);
      SessionIsLast(links, l.source);
      RanStays(links, link, |links|, l.source);
      assert connections == front + [l];
      assert Sources(front, target) + [] == Sources(front, target);
      FedSnoc(links + [link], front, l, |links|, before, after);
    }
  }

  lemma ParentStays(links: seq<SessionLink>, connections: seq<Link>, link: SessionLink, i: nat)
    requires i < |links| && ParentFollows(links, connections, i)
    ensures ParentFollows(links + [link], connections, i)
  {
    hide Ran, LastOf;
    var more := links + [link];
    forall l: Link
      ensures Feeds(more, i, l) <==> Feeds(links, i, l)
    {
      RanStays(links, link, i, l.source);
    }
    if links[i].parent != Some(0) {
      var p := links[i].parent.value;
      var k: nat :| FirstToFeed(links, connections, i, k) && LastOf(links, i, connections[k].source, p);
      RanStays(links, link, i, connections[k].source);
      assert FirstToFeed(more, connections, i, k);
    }
  }

  lemma ParentIsUpstream(links: seq<SessionLink>, connections: seq<Link>, step: Dict)
    requires Tree(links, connections)
    ensures ParentFollows(links + [NewLink(links, Some(ParentOf(links, ConnectedFrom(connections, step))), Some(StepName(step)))],
                          connections, |links|)
  {
    hide ParentOf, MaxSequence, StepName;
    var link := NewLink(links, Some(ParentOf(links, ConnectedFrom(connections, step))), Some(StepName(step)));
    NoParent(links);
    if StepName(step).String? {
      ParentFound(links, connections, link, StepName(step).s);
    }
  }

  lemma TreeGrows(links: seq<SessionLink>, connections: seq<Link>, l: SessionLink)
    requires Tree(links, connections) && l.session == |links| && l.sequence == |links| + 1
    requires ParentFollows(links + [l], connections, |links|)
    ensures Tree(links + [l], connections)
  {
    var more := links + [l];
    forall i | 0 < i < |links|
      ensures ParentFollows(more, connections, i)
    {
      ParentStays(links, connections, l, i);
    }
  }

  lemma StepKeepsTree(p: Progress, connections: seq<Link>, step: Dict, outcome: Decision)
    requires Tree(p.links, connections)
    ensures Tree(Advance(p, connections, step, outcome).links, connections)
  {
    hide ParentOf, ConnectedFrom, ParentFollows, Join, Decisions, MaxSequence, StepName;
    if Runs(step) {
      var parent := Some(ParentOf(p.links, ConnectedFrom(connections, step)));
      NumberedNew(p.links);
      ParentIsUpstream(p.links, connections, step);
      TreeGrows(p.links, connections, NewLink(p.links, parent, Some(StepName(step))));
    }
  }

  // The links of a run form a tree rooted at the lead session, for any connections and
  // steps: the sequences count 1..n and grow from parent to child, and every parent that
  // is not the lead follows a connection.
  lemma {:induction false} RunIsTree(connections: seq<Link>, steps: seq<Dict>, outcomes: seq<Decision>)
    requires |outcomes| == |steps|
    ensures Tree(RunAll(connections, steps, outcomes).links, connections)
  {
    if |steps| > 0 {
      var last := |steps| - 1;
      RunIsTree(connections, steps[..last], outcomes[..last]);
      StepKeepsTree(RunAll(connections, steps[..last], outcomes[..last]), connections, steps[last], outcomes[last]);
    }
  }

  // --- The loop ------------------------------------------------------------------------------

  class SessionLinks {
    var links: seq<SessionLink>

    constructor ()
      ensures links == []
    {
      links := [];
    }

    // link_session_to_workflow: an existing link of the session is kept.
    method LinkSession(session: nat, parent: Option<nat>, step: Option<Value>)
      modifies this
      ensures links == if exists l :: l in old(links) && l.session == session then old(links)
                       else old(links) + [SessionLink(session, parent, MaxSequence(old(links)) + 1, step)]
    {
      for i := 0 to |links|
        invariant links == old(links)
        invariant forall l :: l in links[..i] ==> l.session != session
      {
        if links[i].session == session {
          assert links[i] in links;
          return;
        }
      }
      assert links[..|links|] == links;
      var sequence := 0;
      for i := 0 to |links|
        invariant links == old(links)
        invariant sequence == MaxSequence(links[..i])
      {
        assert links[..i + 1][..i] == links[..i];
        if links[i].sequence > sequence {
          sequence := links[i].sequence;
        }
      }
      assert links[..|links|] == links;
      links := links + [SessionLink(session, parent, sequence + 1, step)];
    }
  }

  // step_session_ids holds the session each step id has by now.
  ghost predicate Known(sessions: map<Value, nat>, links: seq<SessionLink>) {
    forall v: Value :: (if v in sessions then Some(sessions[v]) else None) == SessionOf(links, v)
  }

  // The loop over the upstream nodes.
  method FindParent(ghost links: seq<SessionLink>, sessions: map<Value, nat>, upstream: seq<string>) returns (parent: nat)
    requires Known(sessions, links)
    ensures parent == ParentOf(links, upstream)
  {
    hide SessionOf;
    for i := 0 to |upstream|
      invariant ParentOf(links, upstream) == ParentOf(links, upstream[i..])
    {
      assert upstream[i..][1..] == upstream[i + 1..];
      if upstream[i] != LEAD_NODE_ID && String(upstream[i]) in sessions {
        return sessions[String(upstream[i])];
      }
    }
    parent := 0;
  }

  // The start of a round: the step gets a session, linked to its parent.
  method OpenSession(connections: seq<Link>, step: Dict, sessions: map<Value, nat>, store: SessionLinks)
      returns (sessions': map<Value, nat>)
    requires Known(sessions, store.links) && Numbered(store.links)
    modifies store
    ensures store.links == old(store.links) +
            [NewLink(old(store.links), Some(ParentOf(old(store.links), ConnectedFrom(connections, step))), Some(StepName(step)))]
    ensures Known(sessions', store.links) && Numbered(store.links)
  {
    hide ParentOf, ConnectedFrom, StepName, SessionOf;
    var parent := FindParent(store.links, sessions, ConnectedFrom(connections, step));
    var session := |store.links|;
    NumberedNew(store.links);
    SessionsStep(store.links, Some(parent), StepName(step));
    store.LinkSession(session, Some(parent), Some(StepName(step)));
    sessions' := sessions[StepName(step) := session];
  }

  // The outcomes, with a value that is not read for steps without one.
  function Given(outcomes: seq<Option<Decision>>): (ds: seq<Decision>)
    ensures |ds| == |outcomes|
  {
    seq(|outcomes|, i requires 0 <= i < |outcomes| => if outcomes[i].Some? then outcomes[i].value else ALLOW)
  }

  lemma AdvanceStep(connections: seq<Link>, steps: seq<Dict>, outcomes: seq<Option<Decision>>, i: nat)
    requires |outcomes| == |steps| && i < |steps|
    ensures RunAll(connections, steps[..i + 1], Given(outcomes[..i + 1])) ==
            Advance(RunAll(connections, steps[..i], Given(outcomes[..i])), connections, steps[i],
                    if outcomes[i].Some? then outcomes[i].value else ALLOW)
  {
    hide Advance;
    assert steps[..i + 1][..i] == steps[..i];
    assert Given(outcomes[..i + 1])[..i] == Given(outcomes[..i]);
  }

  lemma StartFacts(connections: seq<Link>)
    ensures RunAll(connections, [], Given([])) == START
    ensures Numbered(START.links) && START.links == [SessionLink(0, None, 1, None)] && START.results == []
    ensures Known(map[], START.links)
  {
  }

  // The step loop. The n-th outcome is that of the n-th step's tool; None is an exception,
  // which ends the run where it is: the step is linked, and has no result.
  method RunSteps(connections: seq<Link>, steps: seq<Dict>, outcomes: seq<Option<Decision>>, store: SessionLinks)
      returns (done: nat, results: seq<StepResult>)
    requires |outcomes| == |steps| && store.links == []
    modifies store
    ensures done <= |steps|
    ensures done < |steps| ==> Runs(steps[done]) && IsTool(steps[done]) && outcomes[done].None?
    ensures forall i :: 0 <= i < done && Runs(steps[i]) && IsTool(steps[i]) ==> outcomes[i].Some?
    ensures var p := RunAll(connections, steps[..done], Given(outcomes[..done]));
            && results == p.results
            && store.links == (if done < |steps| then Advance(p, connections, steps[done], ALLOW).links else p.links)
    ensures Tree(store.links, connections)
  {
    hide ParentOf, ConnectedFrom, Join, IsTool, Runs, StepName, Decisions, RunAll, Given, Known, NewLink,
         Numbered, Tree;
    StartFacts(connections);
    results := [];
    store.LinkSession(0, None, None);
    ghost var p := START;
    var sessions: map<Value, nat> := map[];
    done := 0;
    while done < |steps|
      invariant done <= |steps|
      invariant p == RunAll(connections, steps[..done], Given(outcomes[..done]))
      invariant store.links == p.links && results == p.results
      invariant Numbered(p.links)
      invariant Known(sessions, p.links)
      invariant forall i :: 0 <= i < done && Runs(steps[i]) && IsTool(steps[i]) ==> outcomes[i].Some?
    {
      var step := steps[done];
      AdvanceStep(connections, steps, outcomes, done);
      if Runs(step) {
        sessions := OpenSession(connections, step, sessions, store);
        if IsTool(step) && outcomes[done].None? {
          RunIsTree(connections, steps[..done], Given(outcomes[..done]));
          StepKeepsTree(p, connections, step, ALLOW);
          return;
        }
        var decision := if IsTool(step) then outcomes[done].value else Join(Decisions(results));
        results := results + [StepResult(StepName(step), IsTool(step), decision)];
        p := Advance(p, connections, step, if outcomes[done].Some? then outcomes[done].value else ALLOW);
      }
      done := done + 1;
    }
    RunIsTree(connections, steps[..done], Given(outcomes[..done]));
  }

  // --- Following parents ---------------------------------------------------------------------------

  // Following parents from any session of a tree leads to the lead session.
  function PathToLead(links: seq<SessionLink>, i: nat): seq<nat>
    requires i < |links|
  {
    if i > 0 && links[i].parent.Some? && links[i].parent.value < i then [i] + PathToLead(links, links[i].parent.value) else [i]
  }

  lemma ParentDrops(links: seq<SessionLink>, connections: seq<Link>, i: nat)
    requires Tree(links, connections) && 0 < i < |links|
    ensures links[i].parent.Some? && links[i].parent.value < i
  {
    assert ParentFollows(links, connections, i);
  }

  lemma {:induction false} TreeReachesLead(links: seq<SessionLink>, connections: seq<Link>, i: nat)
    requires Tree(links, connections) && i < |links|
    ensures var path := PathToLead(links, i);
            && path[0] == i && path[|path| - 1] == 0
            && forall k :: 0 <= k < |path| - 1 ==>
                 path[k] < |links| && links[path[k]].parent == Some(path[k + 1]) && path[k] > path[k + 1]
  {
    hide Tree;
    if i > 0 {
      ParentDrops(links, connections, i);
      var p := links[i].parent.value;
      TreeReachesLead(links, connections, p);
      var path, rest := PathToLead(links, i), PathToLead(links, p);
      assert path == [i] + rest;
      forall k | 0 <= k < |path| - 1
        ensures path[k] < |links| && links[path[k]].parent == Some(path[k + 1]) && path[k] > path[k + 1]
      {
        if k > 0 {
          assert path[k] == rest[k - 1] && path[k + 1] == rest[k];
        }
      }
    }
  }

  // --- The decision --------------------------------------------------------------------------------

  // The outcomes of the steps that call a tool.
  function ToolOutcomes(steps: seq<Dict>, outcomes: seq<Decision>): seq<Decision>
    requires |outcomes| == |steps|
  {
    if |steps| == 0 then []
    else
      var last := |steps| - 1;
      ToolOutcomes(steps[..last], outcomes[..last])
      + (if Truthy(Get(steps[last], AgentId)) && Truthy(Get(steps[last], ToolName)) then [outcomes[last]] else [])
  }

  function FinalDecision(connections: seq<Link>, steps: seq<Dict>, outcomes: seq<Decision>): Decision
    requires |outcomes| == |steps|
  {
    Join(Decisions(RunAll(connections, steps, outcomes).results))
  }

  function Max(a: Decision, b: Decision): Decision {
    if a == BLOCK || b == BLOCK then BLOCK else if a == REVIEW || b == REVIEW then REVIEW else ALLOW
  }

  lemma JoinSnoc(ds: seq<Decision>, d: Decision)
    ensures Join(ds + [d]) == Max(Join(ds), d)
  {
    assert BLOCK in ds + [d] <==> BLOCK in ds || d == BLOCK;
    assert REVIEW in ds + [d] <==> REVIEW in ds || d == REVIEW;
  }

  // The join is the highest decision.
  ghost predicate Highest(ds: seq<Decision>, d: Decision) {
    && (d == BLOCK <==> BLOCK in ds)
    && (d == REVIEW <==> REVIEW in ds && BLOCK !in ds)
  }

  lemma {:induction false} ToolsDecide(connections: seq<Link>, steps: seq<Dict>, outcomes: seq<Decision>)
    requires |outcomes| == |steps|
    ensures FinalDecision(connections, steps, outcomes) == Join(ToolOutcomes(steps, outcomes))
  {
    hide ParentOf, ConnectedFrom, NewLink, StepName, Join;
    if |steps| == 0 {
      assert Decisions([]) == [];
    } else {
      var last := |steps| - 1;
      var p := RunAll(connections, steps[..last], outcomes[..last]);
      var tools := ToolOutcomes(steps[..last], outcomes[..last]);
      ToolsDecide(connections, steps[..last], outcomes[..last]);
      if Runs(steps[last]) {
        var r := Advance(p, connections, steps[last], outcomes[last]).results[|p.results|];
        assert Decisions(p.results + [r]) == Decisions(p.results) + [r.decision];
        JoinSnoc(Decisions(p.results), r.decision);
        JoinSnoc(tools, outcomes[last]);
      }
      assert tools + [] == tools;
    }
  }

  // The final decision is the highest of the tool steps alone.
  lemma FinalIsToolJoin(connections: seq<Link>, steps: seq<Dict>, outcomes: seq<Decision>)
    requires |outcomes| == |steps|
    ensures Highest(ToolOutcomes(steps, outcomes), FinalDecision(connections, steps, outcomes))
  {
    hide FinalDecision, ToolOutcomes;
    ToolsDecide(connections, steps, outcomes);
  }

  // A step without a tool decides the join of the tool steps before it.
  lemma NonToolDecision(connections: seq<Link>, steps: seq<Dict>, outcomes: seq<Decision>, i: nat)
    requires |outcomes| == |steps| && i < |steps| && Truthy(Get(steps[i], AgentId)) && !Truthy(Get(steps[i], ToolName))
    ensures var before := RunAll(connections, steps[..i], outcomes[..i]).results;
            var after := RunAll(connections, steps[..i + 1], outcomes[..i + 1]).results;
            && |after| == |before| + 1
            && Highest(ToolOutcomes(steps[..i], outcomes[..i]), after[|before|].decision)
  {
    hide ParentOf, ConnectedFrom, NewLink, StepName, Decisions, ToolOutcomes;
    assert steps[..i + 1][..i] == steps[..i] && outcomes[..i + 1][..i] == outcomes[..i];
    FinalIsToolJoin(connections, steps[..i], outcomes[..i]);
  }

  lemma {:induction false} ToolOutcomesConcat(a: seq<Dict>, b: seq<Dict>, x: seq<Decision>, y: seq<Decision>)
    requires |a| == |x| && |b| == |y|
    ensures ToolOutcomes(a + b, x + y) == ToolOutcomes(a, x) + ToolOutcomes(b, y)
  {
    if |b| == 0 {
      assert a + b == a && x + y == x;
    } else {
      var last := |b| - 1;
      ToolOutcomesConcat(a, b[..last], x, y[..last]);
      assert (a + b)[..|a + b| - 1] == a + b[..last];
      assert (x + y)[..|x + y| - 1] == x + y[..last];
    }
  }

  // Inserting or removing a step without a tool does not change the final decision.
  lemma NonToolStepsDoNotMatter(connections: seq<Link>, a: seq<Dict>, step: Dict, b: seq<Dict>,
                                x: seq<Decision>, d: Decision, y: seq<Decision>)
    requires |a| == |x| && |b| == |y| && !Truthy(Get(step, ToolName))
    ensures FinalDecision(connections, a + [step] + b, x + [d] + y) == FinalDecision(connections, a + b, x + y)
  {
    hide Join, FinalDecision;
    ToolsDecide(connections, a + [step] + b, x + [d] + y);
    ToolsDecide(connections, a + b, x + y);
    ToolOutcomesConcat(a + [step], b, x + [d], y);
    ToolOutcomesConcat(a, [step], x, [d]);
    ToolOutcomesConcat(a, b, x, y);
    assert ToolOutcomes([step], [d]) == [];
    assert ToolOutcomes(a, x) + [] == ToolOutcomes(a, x);
  }

  // --- What the loop leaves -------------------------------------------------------------------------

  // The positions of the steps that have an agent.
  ghost function Acting(steps: seq<Dict>): (at: seq<nat>)
    ensures forall k :: 0 <= k < |at| ==> at[k] < |steps|
  {
    if |steps| == 0 then []
    else
      var last := |steps| - 1;
      Acting(steps[..last]) + (if Truthy(Get(steps[last], AgentId)) then [last] else [])
  }

  // The step's own id, or else its agent.
  ghost function IdOfStep(step: Dict): Value {
    if Truthy(Get(step, StepId)) then Get(step, StepId) else Get(step, AgentId)
  }

  // Link k + 1 and result k are those of this step; a step without a tool decides the
  // highest decision so far.
  ghost predicate LeftBy(p: Progress, k: nat, step: Dict, outcome: Decision)
    requires k < |p.results| && |p.links| == |p.results| + 1
  {
    && p.links[k + 1].step == Some(IdOfStep(step))
    && p.results[k].step == IdOfStep(step)
    && p.results[k].tool == Truthy(Get(step, ToolName))
    && (if p.results[k].tool then p.results[k].decision == outcome
        else Highest(Decisions(p.results[..k]), p.results[k].decision))
  }

  // Each step with an agent gets one link and one result, in order.
  lemma {:induction false} RunFollowsSteps(connections: seq<Link>, steps: seq<Dict>, outcomes: seq<Decision>)
    requires |outcomes| == |steps|
    ensures var p, at := RunAll(connections, steps, outcomes), Acting(steps);
            && |p.links| == |at| + 1 && |p.results| == |at|
            && forall k :: 0 <= k < |at| ==> LeftBy(p, k, steps[at[k]], outcomes[at[k]])
  {
    if |steps| > 0 {
      var last := |steps| - 1;
      var p, p' := RunAll(connections, steps[..last], outcomes[..last]), RunAll(connections, steps, outcomes);
      var at := Acting(steps[..last]);
      RunFollowsSteps(connections, steps[..last], outcomes[..last]);
      forall k | 0 <= k < |at|
        ensures LeftBy(p', k, steps[at[k]], outcomes[at[k]])
      {
        assert LeftBy(p, k, steps[..last][at[k]], outcomes[..last][at[k]]);
        assert p'.results[..k] == p.results[..k];
      }
      if Truthy(Get(steps[last], AgentId)) {
        assert p'.results[..|at|] == p.results;
        assert LeftBy(p', |at|, steps[last], outcomes[last]);
      }
    }
  }
}
