// The laws of the control plane over all request sequences.
module ControlLaws {
  import opened Outcomes
  import opened Json
  import opened WorkflowGraph
  import opened WorkflowEvaluators
  import opened ManifestCompiler
  import opened ControlTables
  import opened ControlPlane
  import opened ControlTheorems
  import Laws = WorkflowGraphLaws
  import Routing = WorkflowRouting
  import Deployed = DeployedGraph

  // --- Versions are numbered 1..n ------------------------------------------------------

  function FamilyIds(t: Tables, root: string): set<string> {
    set id | id in t.definitions && t.definitions[id].root == root
  }

  // 1..n
  function UpTo(n: nat): (s: set<nat>)
    ensures forall k: nat :: k in s <==> 1 <= k <= n
  {
    if n == 0 then {} else UpTo(n - 1) + {n}
  }

  lemma {:induction false} UpToSize(n: nat)
    ensures |UpTo(n)| == n
  {
    if n > 0 {
      UpToSize(n - 1);
    }
  }

  // Below a number of the family there is every smaller one.
  lemma {:induction false} SmallerNumbers(t: Tables, root: string, id: string, k: nat)
    requires LinesOk(t) && Family(t, root, id) && 1 <= k <= t.definitions[id].number
    ensures k in NumbersUnder(t, root)
    decreases t.definitions[id].number
  {
    assert DefinitionOk(t, id);
    if k < t.definitions[id].number {
      var p :| Family(t, root, p) && t.definitions[p].number == t.definitions[id].number - 1;
      SmallerNumbers(t, root, p, k);
    }
  }

  lemma {:induction false} ImageSize(t: Tables, ids: set<string>, root: string)
    requires NumbersDiffer(t) && ids <= FamilyIds(t, root)
    ensures |set id | id in ids :: t.definitions[id].number| == |ids|
  {
    var image := set id | id in ids :: t.definitions[id].number;
    if ids == {} {
      assert image == {};
    } else {
      var x :| x in ids;
      var rest := ids - {x};
      ImageSize(t, rest, root);
      var imageRest := set id | id in rest :: t.definitions[id].number;
      assert image == imageRest + {t.definitions[x].number};
      forall id | id in rest
        ensures t.definitions[id].number != t.definitions[x].number
      {
        assert !SameNumber(t.definitions[id], t.definitions[x]);
      }
      assert t.definitions[x].number !in imageRest;
    }
  }

  lemma NumbersUpToMax(t: Tables, root: string)
    requires Lineage(t) && FamilyIds(t, root) != {}
    ensures NumbersUnder(t, root) == UpTo(MaxNumber(t, root))
  {
    hide MaxNumber, NumbersDiffer, VersionsAgree;
    var source :| source in FamilyIds(t, root);
    NextNumber(t, source);
    var max := MaxNumber(t, root);
    var top :| Family(t, root, top) && t.definitions[top].number == max;
    forall k: nat | 1 <= k <= max
      ensures k in NumbersUnder(t, root)
    {
      SmallerNumbers(t, root, top, k);
    }
    forall k | k in NumbersUnder(t, root)
      ensures 1 <= k <= max
    {
      var id :| Family(t, root, id) && t.definitions[id].number == k;
      assert DefinitionOk(t, id);
    }
  }

  lemma NumbersOfFamily(t: Tables, root: string)
    requires NumbersDiffer(t)
    ensures |NumbersUnder(t, root)| == |FamilyIds(t, root)|
  {
    ImageSize(t, FamilyIds(t, root), root);
    assert NumbersUnder(t, root) == set id | id in FamilyIds(t, root) :: t.definitions[id].number;
  }

  // The definitions of a root carry exactly the numbers 1..n.
  lemma NumbersAreUpTo(t: Tables, root: string)
    requires Lineage(t) && FamilyIds(t, root) != {}
    ensures NumbersUnder(t, root) == UpTo(|FamilyIds(t, root)|)
  {
    hide LinesOk, VersionsAgree, NumbersDiffer, MaxNumber, UpTo, NumbersUnder, FamilyIds;
    NumbersUpToMax(t, root);
    UpToSize(MaxNumber(t, root));
    NumbersOfFamily(t, root);
  }

  // In every reachable state: each root numbers its definitions 1..n, every other version
  // comes from an earlier one of the same root, and the version table agrees.
  lemma LineageOverRuns(rs: seq<Request>, id: string)
    requires id in ServeAll(INITIAL, rs).tables.definitions
    ensures var t := ServeAll(INITIAL, rs).tables;
            var d := t.definitions[id];
            && NumbersUnder(t, d.root) == UpTo(|FamilyIds(t, d.root)|)
            && NumbersDiffer(t)
            && (d.number > 1 ==>
                  && d.previous.Some? && d.previous.value in t.definitions
                  && t.definitions[d.previous.value].root == d.root && t.definitions[d.previous.value].number < d.number)
            && t.versions.Keys == t.definitions.Keys
            && t.versions[id] == VersionRow(d.root, Reported(d.tag), d.number, d.previous, d.status)
  {
    hide ServeAll;
    ServeAllGood(rs);
    var t := ServeAll(INITIAL, rs).tables;
    assert id in FamilyIds(t, t.definitions[id].root);
    NumbersAreUpTo(t, t.definitions[id].root);
    assert DefinitionOk(t, id) && VersionAgrees(t, id);
  }

  // --- Locks ------------------------------------------------------------------------------

  // How far a locked definition has come; five steps lead from the first to the last.
  function Rank(s: Lifecycle): nat {
    match s
    case Draft => 0
    case InReview => 0
    case Certified => 0
    case Packaged => 1
    case Deployed => 2
    case Active => 3
    case Retired => 4
    case Archived => 5
  }

  // The definition is still there, locked, with the same graph, graph hash and
  // configuration, and its status is the same or of a higher rank.
  ghost predicate StaysLocked(d: DefinitionRow, d': DefinitionRow) {
    && LockedStatus(d'.status) && d'.config == d.config && d'.graphHash == d.graphHash
    && (d'.status == d.status || Rank(d'.status) > Rank(d.status))
  }

  // After t the definition is as it was, or only its empty label got its name.
  ghost predicate KeptIn(t: Tables, t': Tables, id: string)
    requires id in t.definitions
  {
    id in t'.definitions && t'.definitions[id].(tag := "") == t.definitions[id].(tag := "")
  }

  lemma EnsureKeeps(t: Tables, q: string, id: string)
    requires Lineage(t) && q in t.definitions && id in t.definitions
    ensures KeptIn(t, EnsureLineage(t, q), id)
  {
    hide Lineage, EnsureLineage;
    EnsureKeepsLineage(t, q);
  }

  lemma LockedUpsert(t: Tables, q: string, x: Posted, registered: map<string, string>, id: string)
    requires Lineage(t) && id in t.definitions && LockedStatus(t.definitions[id].status)
    ensures Upsert(t, q, x, registered).Some? ==> KeptIn(t, Upsert(t, q, x, registered).value, id)
  {
    hide Lineage, EnsureLineage, PostedGraph, PostedConfig, PostedMetadata, PostedHash;
    if q in t.definitions {
      EnsureKeeps(t, q, id);
    }
  }

  lemma LockedVersion(t: Tables, source: string, q: string, tag: string, id: string)
    requires Lineage(t) && id in t.definitions
    ensures NewVersion(t, source, q, tag).Some? ==> KeptIn(t, NewVersion(t, source, q, tag).value, id)
  {
    hide Lineage, EnsureLineage, MaxNumber;
    if source in t.definitions {
      EnsureKeeps(t, source, id);
    }
  }

  lemma LockedEvaluation(t: Tables, q: string, certifiable: bool, id: string)
    requires Lineage(t) && id in t.definitions && q in t.definitions
    ensures BeginEvaluation(t, q).Some?
    ensures KeptIn(t, EndEvaluation(BeginEvaluation(t, q).value, q, t.definitions[q].config, certifiable), id)
  {
    hide Lineage, EnsureLineage;
    EnsureKeeps(t, q, id);
  }

  lemma LockedDeployment(t: Tables, q: string, deployment: string, secret: bool, id: string)
    requires Lineage(t) && id in t.definitions
    ensures Deploy(t, q, deployment, secret).Some? ==> KeptIn(t, Deploy(t, q, deployment, secret).value, id)
  {
    hide Lineage, EnsureLineage, Compile;
    if q in t.definitions {
      EnsureKeeps(t, q, id);
    }
  }

  lemma LockedTransition(t: Tables, q: string, target: Lifecycle, id: string)
    requires Lineage(t) && id in t.definitions && LockedStatus(t.definitions[id].status)
    ensures Transition(t, q, target).Some? ==>
              && id in Transition(t, q, target).value.definitions
              && StaysLocked(t.definitions[id], Transition(t, q, target).value.definitions[id])
  {
    hide Lineage, EnsureLineage;
    if q in t.definitions {
      EnsureKeeps(t, q, id);
    }
  }

  lemma LockedStep(s: State, r: Request, id: string)
    requires Lineage(s.tables) && id in s.tables.definitions && LockedStatus(s.tables.definitions[id].status)
    ensures id in Serve(s, r).tables.definitions
    ensures StaysLocked(s.tables.definitions[id], Serve(s, r).tables.definitions[id])
  {
    hide Lineage, Upsert, NewVersion, Transition, Deploy, BeginEvaluation, EndEvaluation, Certifies;
    match r
    case GetDefinition(q) => if q in s.tables.definitions { EnsureKeeps(s.tables, q, id); }
    case PostDefinition(q, x, registered) => LockedUpsert(s.tables, q, x, registered, id);
    case PostVersion(source, q, tag) => LockedVersion(s.tables, source, q, tag, id);
    case PostLifecycle(q, target) => LockedTransition(s.tables, q, target, id);
    case PostEvaluation(q, a) => if q in s.tables.definitions { LockedEvaluation(s.tables, q, Certifies(s.tables.definitions[q].config, a), id); }
    case PostDeployment(q, deployment, secret) => LockedDeployment(s.tables, q, deployment, secret, id);
    case PostScenarioRun(deployment, results) =>
    case PostActivation(deployment) =>
  }

  ghost function ServeOn(s: State, rs: seq<Request>): State
    decreases |rs|
  {
    if |rs| == 0 then s else ServeOn(Serve(s, rs[0]), rs[1..])
  }

  // How often the status of a definition changes.
  ghost function Moves(s: State, rs: seq<Request>, id: string): nat
    decreases |rs|
  {
    if |rs| == 0 then 0
    else
      var s' := Serve(s, rs[0]);
      var moved := id in s.tables.definitions && id in s'.tables.definitions
                   && s'.tables.definitions[id].status != s.tables.definitions[id].status;
      (if moved then 1 else 0) + Moves(s', rs[1..], id)
  }

  lemma GoodLineage(s: State)
    requires Good(s)
    ensures Lineage(s.tables)
  {
  }

  // In any continuation a locked definition stays locked with its graph, its graph hash
  // and its configuration, and its status changes at most five times.
  lemma {:induction false} LockedForGood(s: State, rs: seq<Request>, id: string)
    requires Good(s) && id in s.tables.definitions && LockedStatus(s.tables.definitions[id].status)
    ensures var s' := ServeOn(s, rs);
            && id in s'.tables.definitions && StaysLocked(s.tables.definitions[id], s'.tables.definitions[id])
            && Moves(s, rs, id) + Rank(s.tables.definitions[id].status) <= Rank(s'.tables.definitions[id].status) <= 5
    decreases |rs|
  {
    hide Serve, Good;
    if |rs| > 0 {
      ServeGood(s, rs[0]);
      GoodLineage(s);
      LockedStep(s, rs[0], id);
      LockedForGood(Serve(s, rs[0]), rs[1..], id);
    }
  }

  // --- Moves ----------------------------------------------------------------------------------

  // The moves of a lifecycle, as pairs.
  const MOVES: set<(Lifecycle, Lifecycle)> := {
    (Draft, InReview), (Draft, Archived), (InReview, Certified), (InReview, Draft), (InReview, Archived),
    (Certified, Packaged), (Certified, Archived), (Packaged, Deployed), (Packaged, Archived),
    (Deployed, Active), (Deployed, Archived), (Active, Retired), (Retired, Archived)}

  // A move is refused iff it is not one of these; it leads where it says and locks what
  // leaves review.
  lemma TransitionIff(t: Tables, id: string, target: Lifecycle)
    ensures Transition(t, id, target).Some? <==> id in t.definitions && (t.definitions[id].status, target) in MOVES
    ensures Transition(t, id, target).Some? ==>
              var d, d' := t.definitions[id], Transition(t, id, target).value.definitions[id];
              && d'.status == target && d'.config == d.config
              && (d'.locked <==> d.locked || target !in {Draft, InReview})
  {
    hide Sync;
  }

  // The status of a definition is one of the moves away from what it was, by a request that
  // asks for that move; a new definition is a draft.
  ghost predicate MovedBy(t: Tables, t': Tables, r: Request, id: string) {
    id in t'.definitions ==>
      if id !in t.definitions then t'.definitions[id].status == Draft
      else
        || t'.definitions[id].status == t.definitions[id].status
        || (r == PostLifecycle(id, t'.definitions[id].status) && (t.definitions[id].status, t'.definitions[id].status) in MOVES)
  }

  lemma RowsMove(t: Tables, r: Request, id: string)
    ensures r.GetDefinition? && r.id in t.definitions ==> MovedBy(t, EnsureLineage(t, r.id), r, id)
    ensures r.PostVersion? && NewVersion(t, r.source, r.id, r.tag).Some? ==>
              MovedBy(t, NewVersion(t, r.source, r.id, r.tag).value, r, id)
    ensures r.PostDeployment? && Deploy(t, r.id, r.deployment, r.secret).Some? ==>
              MovedBy(t, Deploy(t, r.id, r.deployment, r.secret).value, r, id)
  {
    hide Sync, MOVES, MaxNumber, Compile;
  }

  lemma PostMoves(t: Tables, r: Request, id: string)
    requires r.PostDefinition? && Upsert(t, r.id, r.posted, r.registered).Some?
    ensures MovedBy(t, Upsert(t, r.id, r.posted, r.registered).value, r, id)
  {
    hide Sync, MOVES, PostedGraph, PostedConfig, PostedMetadata, PostedHash;
  }

  lemma EvaluationMoves(t: Tables, r: Request, read: Config, certifiable: bool, id: string)
    requires r.PostEvaluation? && r.id in t.definitions
    ensures BeginEvaluation(t, r.id).Some?
    ensures MovedBy(t, EndEvaluation(BeginEvaluation(t, r.id).value, r.id, read, certifiable), r, id)
  {
    hide Sync, MOVES;
  }

  lemma LifecycleMoves(t: Tables, r: Request, id: string)
    requires r.PostLifecycle? && Transition(t, r.id, r.target).Some?
    ensures MovedBy(t, Transition(t, r.id, r.target).value, r, id)
  {
    hide Sync, MOVES;
    TransitionIff(t, r.id, r.target);
  }

  lemma NothingMoves(t: Tables, t': Tables, r: Request, id: string)
    requires t'.definitions == t.definitions
    ensures MovedBy(t, t', r, id)
  {
  }

  // No other request moves a definition.
  lemma StatusMoves(s: State, r: Request, id: string)
    ensures MovedBy(s.tables, Serve(s, r).tables, r, id)
  {
    hide Upsert, NewVersion, Transition, Deploy, BeginEvaluation, EndEvaluation, EnsureLineage, Certifies, MovedBy, HasPassingRun,
         RetireOthers, Count, SuiteVerdict;
    var t := s.tables;
    NothingMoves(t, t, r, id);
    match r
    case GetDefinition(q) => RowsMove(t, r, id);
    case PostDefinition(q, x, registered) => if Upsert(t, q, x, registered).Some? { PostMoves(t, r, id); }
    case PostVersion(source, q, tag) => RowsMove(t, r, id);
    case PostLifecycle(q, target) => if Transition(t, q, target).Some? { LifecycleMoves(t, r, id); }
    case PostEvaluation(q, a) =>
      if q in t.definitions {
        EvaluationMoves(t, r, t.definitions[q].config, Certifies(t.definitions[q].config, a), id);
      }
    case PostDeployment(q, d, secret) => RowsMove(t, r, id);
    case PostScenarioRun(d, results) => NothingMoves(t, Serve(s, r).tables, r, id);
    case PostActivation(d) => NothingMoves(t, Serve(s, r).tables, r, id);
  }

  // --- Certification -------------------------------------------------------------------------

  // In every reachable state a certified record carries the hash of the configuration the
  // definition has, and that configuration passed every evaluator.
  lemma CertifiedIsFresh(rs: seq<Request>, id: string)
    requires var t := ServeAll(INITIAL, rs).tables; id in t.certs && t.certs[id].status == CertCertified
    ensures var t := ServeAll(INITIAL, rs).tables;
            && id in t.definitions
            && t.certs[id].hash == Digest(t.definitions[id].config)
            && exists a :: Certifies(t.definitions[id].config, a)
  {
    hide ServeAll, Certifies, NormalOnce;
    ServeAllGood(rs);
    var s := ServeAll(INITIAL, rs);
    assert CertFresh(s, id);
  }

  // --- Deployments ---------------------------------------------------------------------------

  lemma PackagedNow(g: Graph, types: map<string, string>, m: Manifest, lead: string)
    requires NormalWith(g, types) && Deployed.LeadIs(g.nodes, lead) && Sound(VOCABULARY)
    requires Compile(true, g, m.metadata, false) == Ok(m)
    ensures Deployed.Packaged(g, Registry(VOCABULARY, types), m, lead)
  {
    hide Laws.NormalGraph, Deployed.LeadIs, Compile, Sound, VOCABULARY;
  }

  lemma NamedNode(n: Dict, reg: Registry) returns (name: string)
    requires Laws.NormalNode(n, reg)
    ensures Get(n, NodeId) == String(name)
  {
    name := n[NodeId].s;
  }

  lemma LeadExists(g: Graph, reg: Registry) returns (lead: string)
    requires Laws.NormalGraph(g, reg)
    ensures Deployed.LeadIs(g.nodes, lead)
  {
    hide Laws.NormalNode, Laws.NormalEdges, IsLead;
    var n :| n in g.nodes && IsLead(n);
    var k :| 0 <= k < |g.nodes| && g.nodes[k] == n;
    var i := 0;
    while !IsLead(g.nodes[i])
      invariant 0 <= i <= k
      invariant forall j :: 0 <= j < i ==> !IsLead(g.nodes[j])
      decreases k - i
    {
      i := i + 1;
    }
    assert g.nodes[i] in g.nodes;
    lead := NamedNode(g.nodes[i], reg);
  }

  // Every revision was compiled from a normalised configuration that passed all
  // evaluators, and what its engine runs are that configuration's nodes and edges: the
  // surviving edges, the first of each name, all of them used, and every node but the lead.
  lemma RevisionsRunCertifiedGraphs(rs: seq<Request>, r: string, query: string, lower: string -> string) returns (config: Config, lead: string)
    requires r in ServeAll(INITIAL, rs).tables.revisions
    ensures var m := ServeAll(INITIAL, rs).tables.revisions[r].manifest;
            && config in ServeAll(INITIAL, rs).certified
            && CompiledFrom(m, config)
            && (exists a :: Certifies(config, a))
            && Deployed.Leads(config.graph.nodes, lead, Rebuilt(m).leadAgentId)
            && Deployed.StepsRun(Routing.Steps(Rebuilt(m)), Deployed.Others(config.graph.nodes, lead))
            && (config.graph.edges != [] ==>
                  var steps := Routing.Steps(Rebuilt(m));
                  var connections := Routing.Connections(Rebuilt(m), steps);
                  && Routing.Selected(steps, query, lower) == steps
                  && connections == Routing.ByName(Deployed.Surviving(Deployed.EdgeLinks(config.graph.edges), lead))
                  && Routing.UsedLinks(connections, steps) == connections)
  {
    hide ServeAll, Certifies, Rebuilt, OtherThan, Compile, Routing.Steps, Routing.Connections, Routing.Selected, Routing.UsedLinks,
         Routing.ByName, Deployed.Surviving, Deployed.EdgeLinks, Deployed.StepsRun, Deployed.Others, Deployed.Leads, Deployed.LeadIs, Sound, VOCABULARY;
    ServeAllGood(rs);
    var s := ServeAll(INITIAL, rs);
    var m := s.tables.revisions[r].manifest;
    assert Provenance(s, m);
    config :| config in s.certified && CompiledFrom(m, config);
    var types :| NormalWith(config.graph, types);
    VocabularySound();
    lead := LeadExists(config.graph, Registry(VOCABULARY, types));
    PackagedNow(config.graph, types, m, lead);
    Deployed.DeployedSteps(config.graph, Registry(VOCABULARY, types), m, lead);
    if config.graph.edges != [] {
      Deployed.PackagedKeepsGraph(config.graph, Registry(VOCABULARY, types), m, lead, query, lower);
    }
  }

  // --- Activation -----------------------------------------------------------------------------

  // An activation is refused for a retired revision, and in production without a passing run.
  // It makes the revision active, retires the active ones of its workflow and environment,
  // and leaves all others as they were.
  lemma ActivationMeans(t: Tables, deployment: string)
    ensures Activate(t, deployment).Some? <==>
            && deployment in t.revisions && t.revisions[deployment].status != RevRetired
            && (t.revisions[deployment].environment == "production" ==>
                  exists x :: x in t.scenarios && x.deployment == deployment && x.pass)
    ensures Activate(t, deployment).Some? ==>
              var t', d := Activate(t, deployment).value, t.revisions[deployment];
              && t' == t.(revisions := t'.revisions) && t'.revisions.Keys == t.revisions.Keys
              && forall r :: r in t.revisions ==>
                   t'.revisions[r] == t.revisions[r].(status :=
                     if r == deployment then RevActive
                     else if t.revisions[r].status == RevActive && t.revisions[r].workflow == d.workflow
                             && t.revisions[r].environment == d.environment then RevRetired
                     else t.revisions[r].status)
  {
  }

  // In every reachable state at most one revision of a workflow is active in an
  // environment, and an active production revision has a scenario run with at least one
  // case in which every case passed.
  lemma ActivationOverRuns(rs: seq<Request>, r: string)
    requires var t := ServeAll(INITIAL, rs).tables; r in t.revisions && t.revisions[r].status == RevActive
    ensures var t := ServeAll(INITIAL, rs).tables;
            && (forall q :: q in t.revisions && BothActive(t.revisions[q], t.revisions[r]) ==> q == r)
            && (t.revisions[r].environment == PRODUCTION ==>
                  exists x :: x in t.scenarios && x.deployment == r && x.total >= 1 && x.passed == x.total)
  {
    hide ServeAll, NormalOnce, Certifies, Provenance;
    ServeAllGood(rs);
    var t := ServeAll(INITIAL, rs).tables;
    if t.revisions[r].environment == PRODUCTION {
      assert HasPassingRun(t, r);
      var x :| x in t.scenarios && x.deployment == r && x.pass;
    }
  }

  // No request brings a retired revision back, or changes the manifest of any revision.
  lemma RetiredStaysRetired(s: State, q: Request, r: string)
    requires r in s.tables.revisions
    ensures var s' := Serve(s, q);
            && r in s'.tables.revisions
            && s'.tables.revisions[r].manifest == s.tables.revisions[r].manifest
            && (s.tables.revisions[r].status == RevRetired ==> s'.tables.revisions[r].status == RevRetired)
  {
    hide PostedGraph, PostedConfig, PostedMetadata, PostedHash, Compile, Certifies, MaxNumber, MayBecome, SuiteVerdict, Count,
         HasPassingRun;
  }

  lemma {:induction false} RetiredForGood(s: State, rs: seq<Request>, r: string)
    requires r in s.tables.revisions
    ensures var s' := ServeOn(s, rs);
            && r in s'.tables.revisions
            && s'.tables.revisions[r].manifest == s.tables.revisions[r].manifest
            && (s.tables.revisions[r].status == RevRetired ==> s'.tables.revisions[r].status == RevRetired)
    decreases |rs|
  {
    hide Serve;
    if |rs| > 0 {
      RetiredStaysRetired(s, rs[0], r);
      RetiredForGood(Serve(s, rs[0]), rs[1..], r);
    }
  }
}
