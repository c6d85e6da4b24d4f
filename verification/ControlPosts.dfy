// What a post of a definition stores, and what becomes of it over all request sequences:
// the environment a revision runs in is the one its definition was last posted with
// (intelliguard/persistence/store.py:580-676, 2194-2205; runtime/scenario_evaluator.py:123-129).
module ControlPosts {
  import opened Outcomes
  import opened Json
  import opened WorkflowGraph
  import opened ManifestCompiler
  import opened ControlTables
  import opened ControlPlane
  import opened ControlTheorems
  import opened ControlLaws

  // --- When a post is accepted --------------------------------------------------------------

  ghost predicate Lists(v: Value, d: Dict) {
    v.List? && exists i :: 0 <= i < |v.items| && v.items[i].Object? && v.items[i].fields == d
  }

  // A step or node of the payload is given to the agent, or it is the lead agent.
  ghost predicate Names(p: Payload, agent: string) {
    || agent == p.leadAgentId
    || exists d: Dict ::
         && ((p.steps.Some? && Lists(p.steps.value, d)) || Lists(p.nodes, d))
         && AgentId in d && Truthy(d[AgentId]) && Shown(d[AgentId]) == agent
  }

  // The types of the agents the payload names.
  ghost predicate TypesOf(p: Payload, registered: map<string, string>, types: map<string, string>) {
    && (forall a :: a in types <==> a in registered && Names(p, a))
    && (forall a :: a in types ==> types[a] == registered[a])
  }

  ghost predicate Normalizes(x: Posted, registered: map<string, string>, g: Graph) {
    exists types :: TypesOf(x.payload, registered, types) && Normalized(x.payload, Registry(VOCABULARY, types)) == Ok(g)
  }

  ghost predicate Accepts(t: Tables, id: string, x: Posted, registered: map<string, string>) {
    && (forall a :: Names(x.payload, a) ==> a in registered)
    && (Truthy(x.payload.metadata) ==> x.payload.metadata.Object?)
    && (exists g :: Normalizes(x, registered, g))
    && (id in t.definitions ==> !t.definitions[id].locked && t.definitions[id].status in {Draft, InReview})
  }

  lemma {:induction false} DictsListed(items: seq<Value>, d: Dict)
    ensures d in Dicts(items) <==> exists i :: 0 <= i < |items| && items[i].Object? && items[i].fields == d
  {
    if |items| > 0 {
      var last := |items| - 1;
      DictsListed(items[..last], d);
      if d in Dicts(items[..last]) {
        var i :| 0 <= i < last && items[..last][i].Object? && items[..last][i].fields == d;
        assert items[i].Object? && items[i].fields == d;
      }
      if exists i :: 0 <= i < |items| && items[i].Object? && items[i].fields == d {
        var i :| 0 <= i < |items| && items[i].Object? && items[i].fields == d;
        assert i < last ==> items[..last][i].Object? && items[..last][i].fields == d;
      }
    }
  }

  lemma NamedAgents(p: Payload, a: string)
    ensures a in AgentsNamed(p) <==> Names(p, a)
  {
    var steps := if p.steps.Some? && p.steps.value.List? then Dicts(p.steps.value.items) else [];
    var nodes := if p.nodes.List? then Dicts(p.nodes.items) else [];
    forall d: Dict
      ensures d in steps + nodes <==> (p.steps.Some? && Lists(p.steps.value, d)) || Lists(p.nodes, d)
    {
      if p.steps.Some? && p.steps.value.List? { DictsListed(p.steps.value.items, d); }
      if p.nodes.List? { DictsListed(p.nodes.items, d); }
    }
  }

  lemma TypesNamedAre(p: Payload, registered: map<string, string>, types: map<string, string>)
    ensures TypesOf(p, registered, types) <==> types == TypesNamed(p, registered)
  {
    hide AgentsNamed, Names;
    forall a: string
      ensures a in AgentsNamed(p) <==> Names(p, a)
    {
      NamedAgents(p, a);
    }
  }

  lemma GraphPosted(x: Posted, registered: map<string, string>)
    ensures PostedGraph(x, registered).Some? <==>
            && (forall a :: Names(x.payload, a) ==> a in registered)
            && (Truthy(x.payload.metadata) ==> x.payload.metadata.Object?)
            && (exists g :: Normalizes(x, registered, g))
    ensures PostedGraph(x, registered).Some? ==> Normalizes(x, registered, PostedGraph(x, registered).value)
  {
    hide AgentsNamed, Names, TypesNamed, TypesOf, Normalized;
    forall a: string
      ensures a in AgentsNamed(x.payload) <==> Names(x.payload, a)
    {
      NamedAgents(x.payload, a);
    }
    forall types
      ensures TypesOf(x.payload, registered, types) <==> types == TypesNamed(x.payload, registered)
    {
      TypesNamedAre(x.payload, registered, types);
    }
    var types := TypesNamed(x.payload, registered);
    assert AgentsNamed(x.payload) <= registered.Keys <==> forall a :: Names(x.payload, a) ==> a in registered;
    assert TypesOf(x.payload, registered, types);
    assert (exists g :: Normalizes(x, registered, g)) <==> Normalized(x.payload, Registry(VOCABULARY, types)).Ok? by {
      if Normalized(x.payload, Registry(VOCABULARY, types)).Ok? {
        assert Normalizes(x, registered, Normalized(x.payload, Registry(VOCABULARY, types)).value);
      }
    }
  }

  // A post is accepted exactly if its agents are registered, its metadata is a dict or
  // nothing, its graph normalises, and the definition is neither locked nor past review.
  lemma PostAccepted(t: Tables, id: string, x: Posted, registered: map<string, string>)
    ensures Upsert(t, id, x, registered).Some? <==> Accepts(t, id, x, registered)
  {
    hide Names, Normalizes, PostedGraph, EnsureLineage, Sync, Invalidate, PostedConfig, PostedMetadata, PostedHash;
    GraphPosted(x, registered);
  }

  // --- What it stores ---------------------------------------------------------------------------

  ghost function Fields(v: Value): Dict {
    if v.Object? then v.fields else map[]
  }

  // The first of these that is there and not empty.
  ghost predicate FirstOf(v: Value, posted: Value, metadata: Dict, k: Key, default: Value) {
    v == if Truthy(posted) then posted else if k in metadata && Truthy(metadata[k]) then metadata[k] else default
  }

  ghost predicate Says(config: Config, x: Posted) {
    var metadata := Fields(x.payload.metadata);
    && config.environment == x.environment
    && config.leadAgentId == x.payload.leadAgentId
    && config.steps == (if x.payload.steps.Some? && Truthy(x.payload.steps.value) then x.payload.steps.value
                        else List([], "[]"))
    && FirstOf(config.domain, x.domain, metadata, Domain, String("general"))
    && FirstOf(config.bindings, x.bindings, metadata, PolicyBindings, Object(map[], "{}"))
    && FirstOf(config.rules, x.rules, metadata, ReviewRules, Object(map[], "{}"))
  }

  ghost predicate KeepsMetadata(d: DefinitionRow, x: Posted) {
    var metadata := Fields(x.payload.metadata);
    && Domain in d.metadata && d.metadata[Domain] == d.config.domain
    && GraphVersionHash !in d.metadata
    && forall k :: k != Domain && k != GraphVersionHash ==>
         (k in d.metadata <==> k in metadata) && (k in metadata ==> d.metadata[k] == metadata[k])
  }

  ghost predicate HashSaid(d: DefinitionRow, x: Posted) {
    d.graphHash == if x.graphHash.Some? && x.graphHash.value != "" then Given(x.graphHash.value) else HashOf(d.config.graph)
  }

  // The line of a definition that is posted: a new one, or the one it had.
  ghost predicate LineOfPost(t: Tables, id: string, d: DefinitionRow) {
    if id in t.definitions then
      var was := t.definitions[id];
      && d.root == (if was.root == "" then id else was.root)
      && d.tag == (if was.tag == "" then "v1" else was.tag)
      && d.number == (if was.number == 0 then 1 else was.number)
      && d.previous == was.previous && d.status == was.status && d.locked == was.locked
    else
      d.root == id && d.tag == "v1" && d.number == 1 && d.previous.None? && d.status == Draft && !d.locked
  }

  // The fields of a row that come from the request.
  ghost predicate Stores(d: DefinitionRow, x: Posted, registered: map<string, string>) {
    Says(d.config, x) && Normalizes(x, registered, d.config.graph) && KeepsMetadata(d, x) && HashSaid(d, x)
  }

  lemma ConfigSays(x: Posted, g: Graph)
    ensures Says(PostedConfig(x, g), x) && PostedConfig(x, g).graph == g
  {
  }

  lemma MetadataKept(d: DefinitionRow, x: Posted, g: Graph)
    requires d.config == PostedConfig(x, g) && d.metadata == PostedMetadata(x)
    ensures KeepsMetadata(d, x)
  {
    hide PostedOr;
  }

  lemma RowSays(d: DefinitionRow, x: Posted, g: Graph)
    requires d.config == PostedConfig(x, g) && d.metadata == PostedMetadata(x) && d.graphHash == PostedHash(x, g)
    ensures Says(d.config, x) && KeepsMetadata(d, x) && HashSaid(d, x) && d.config.graph == g
  {
    hide Says, KeepsMetadata, PostedConfig, PostedMetadata;
    ConfigSays(x, g);
    MetadataKept(d, x, g);
  }

  // What an accepted post leaves in the tables.
  ghost predicate Posts(t: Tables, t': Tables, id: string) {
    && (forall q :: q != id ==>
          (q in t'.definitions <==> q in t.definitions) && (q in t.definitions ==> t'.definitions[q] == t.definitions[q]))
    && (id in t.definitions && id in t.certs ==>
          id in t'.certs && t'.certs[id].status == (if t.certs[id].status == CertDraft then CertDraft else CertStale))
    && t'.revisions == t.revisions && t'.scenarios == t.scenarios
  }

  lemma PostedRow(t: Tables, id: string, x: Posted, registered: map<string, string>)
    requires Upsert(t, id, x, registered).Some?
    ensures var t', g := Upsert(t, id, x, registered).value, PostedGraph(x, registered);
            && g.Some? && id in t'.definitions
            && t'.definitions[id].config == PostedConfig(x, g.value)
            && t'.definitions[id].metadata == PostedMetadata(x)
            && t'.definitions[id].graphHash == PostedHash(x, g.value)
            && LineOfPost(t, id, t'.definitions[id])
  {
    hide PostedGraph, PostedConfig, PostedMetadata, PostedHash;
  }

  lemma PostedRest(t: Tables, id: string, x: Posted, registered: map<string, string>)
    requires Upsert(t, id, x, registered).Some?
    ensures Posts(t, Upsert(t, id, x, registered).value, id)
  {
    hide PostedGraph, PostedConfig, PostedMetadata, PostedHash;
  }

  // The request is stored, field by field, and no other definition is touched; a
  // certification that was more than a draft becomes stale.
  lemma PostStores(t: Tables, id: string, x: Posted, registered: map<string, string>)
    requires Upsert(t, id, x, registered).Some?
    ensures var t' := Upsert(t, id, x, registered).value;
            && id in t'.definitions
            && Stores(t'.definitions[id], x, registered)
            && LineOfPost(t, id, t'.definitions[id])
            && Posts(t, t', id)
  {
    hide Upsert, PostedGraph, Normalizes, Says, KeepsMetadata, HashSaid, PostedConfig, PostedMetadata,
         PostedHash, LineOfPost, Posts;
    GraphPosted(x, registered);
    PostedRow(t, id, x, registered);
    PostedRest(t, id, x, registered);
    RowSays(Upsert(t, id, x, registered).value.definitions[id], x, PostedGraph(x, registered).value);
  }

  // --- Where a configuration comes from -------------------------------------------------------------

  ghost function TablesAfter(rs: seq<Request>): Tables {
    ServeAll(INITIAL, rs).tables
  }

  // The post whose fields the definition has after these requests: the last one accepted on
  // it, or on the definition it is a version of when that version was made.
  ghost function LastPost(rs: seq<Request>, id: string): Option<Posted>
    decreases |rs|
  {
    if |rs| == 0 then None
    else
      var front, last := rs[..|rs| - 1], rs[|rs| - 1];
      match last
      case PostDefinition(q, x, registered) =>
        if q == id && Accepts(TablesAfter(front), id, x, registered) then Some(x) else LastPost(front, id)
      case PostVersion(source, q, tag) =>
        LastPost(front, if q == id && id !in TablesAfter(front).definitions then source else id)
      case _ => LastPost(front, id)
  }

  // The definition has the configuration it had.
  ghost predicate SameConfig(t: Tables, t': Tables, id: string) {
    id in t'.definitions ==> id in t.definitions && t'.definitions[id].config == t.definitions[id].config
  }

  lemma EnsureSameConfig(t: Tables, q: string, id: string)
    requires q in t.definitions
    ensures SameConfig(t, EnsureLineage(t, q), id)
  {
    hide Sync;
  }

  lemma VersionConfig(t: Tables, source: string, q: string, tag: string, id: string)
    requires NewVersion(t, source, q, tag).Some?
    ensures var t' := NewVersion(t, source, q, tag).value;
            && source in t.definitions && q !in t.definitions
            && (if id == q then id in t'.definitions && t'.definitions[id].config == t.definitions[source].config
                else SameConfig(t, t', id))
  {
    hide Sync, MaxNumber;
  }

  lemma MoveConfig(t: Tables, q: string, target: Lifecycle, id: string)
    ensures Transition(t, q, target).Some? ==> SameConfig(t, Transition(t, q, target).value, id)
  {
    hide Sync;
  }

  lemma DeployConfig(t: Tables, q: string, deployment: string, secret: bool, id: string)
    ensures Deploy(t, q, deployment, secret).Some? ==> SameConfig(t, Deploy(t, q, deployment, secret).value, id)
  {
    hide Sync, Compile;
  }

  lemma EvaluationConfig(t: Tables, q: string, read: Config, certifiable: bool, id: string)
    requires q in t.definitions
    ensures BeginEvaluation(t, q).Some? && SameConfig(t, EndEvaluation(BeginEvaluation(t, q).value, q, read, certifiable), id)
  {
    hide Sync;
  }

  lemma PostConfig(s: State, q: string, x: Posted, registered: map<string, string>, id: string)
    ensures var t' := Serve(s, PostDefinition(q, x, registered)).tables;
            if q == id && Accepts(s.tables, id, x, registered) then id in t'.definitions && Says(t'.definitions[id].config, x)
            else SameConfig(s.tables, t', id)
  {
    hide Accepts, Upsert, Says, Normalizes, KeepsMetadata, HashSaid, LineOfPost;
    PostAccepted(s.tables, q, x, registered);
    if Upsert(s.tables, q, x, registered).Some? {
      PostStores(s.tables, q, x, registered);
    }
  }

  lemma SameItself(t: Tables, id: string)
    ensures SameConfig(t, t, id)
  {
  }

  lemma RowsConfig(t: Tables, d: string, results: seq<bool>, id: string)
    ensures RunScenarios(t, d, results).Some? ==> SameConfig(t, RunScenarios(t, d, results).value, id)
    ensures Activate(t, d).Some? ==> SameConfig(t, Activate(t, d).value, id)
  {
    hide HasPassingRun, RetireOthers;
  }

  // No other request changes a configuration.
  lemma OtherConfig(s: State, r: Request, id: string)
    requires !r.PostDefinition? && !r.PostVersion?
    ensures SameConfig(s.tables, Serve(s, r).tables, id)
  {
    hide SameConfig, EnsureLineage, Transition, Deploy, BeginEvaluation, EndEvaluation, Certifies, Activate,
         RunScenarios;
    SameItself(s.tables, id);
    match r
    case GetDefinition(q) => if q in s.tables.definitions { EnsureSameConfig(s.tables, q, id); }
    case PostLifecycle(q, target) => MoveConfig(s.tables, q, target, id);
    case PostEvaluation(q, a) =>
      if q in s.tables.definitions {
        EvaluationConfig(s.tables, q, s.tables.definitions[q].config, Certifies(s.tables.definitions[q].config, a), id);
      }
    case PostDeployment(q, d, secret) => DeployConfig(s.tables, q, d, secret, id);
    case PostScenarioRun(d, results) => RowsConfig(s.tables, d, results, id);
    case PostActivation(d) => RowsConfig(s.tables, d, [], id);
  }

  lemma VersionServed(s: State, source: string, q: string, tag: string, id: string)
    ensures var t' := Serve(s, PostVersion(source, q, tag)).tables;
            id in t'.definitions ==>
              if q == id && id !in s.tables.definitions then
                source in s.tables.definitions && t'.definitions[id].config == s.tables.definitions[source].config
              else id in s.tables.definitions && t'.definitions[id].config == s.tables.definitions[id].config
  {
    hide NewVersion;
    if NewVersion(s.tables, source, q, tag).Some? {
      VersionConfig(s.tables, source, q, tag, id);
    }
  }

  // In every reachable state the fields of a definition are those of the post it was last
  // given.
  lemma {:induction false} LastPostStored(rs: seq<Request>, id: string)
    requires id in TablesAfter(rs).definitions
    ensures LastPost(rs, id).Some? && Says(TablesAfter(rs).definitions[id].config, LastPost(rs, id).value)
    decreases |rs|
  {
    hide Serve, Says, Accepts;
    var front, last := rs[..|rs| - 1], rs[|rs| - 1];
    var s := ServeAll(INITIAL, front);
    assert ServeAll(INITIAL, rs) == Serve(s, last);
    match last
    case PostDefinition(q, x, registered) =>
      PostConfig(s, q, x, registered, id);
      if !(q == id && Accepts(s.tables, id, x, registered)) {
        LastPostStored(front, id);
      }
    case PostVersion(source, q, tag) =>
      VersionServed(s, source, q, tag, id);
      LastPostStored(front, if q == id && id !in s.tables.definitions then source else id);
    case _ =>
      OtherConfig(s, last, id);
      LastPostStored(front, id);
  }

  // --- The environment of a revision --------------------------------------------------------------

  // Request k deployed its definition as this revision.
  ghost predicate MadeBy(rs: seq<Request>, k: nat, r: string, row: RevisionRow)
    requires k < |rs|
  {
    && rs[k].PostDeployment? && rs[k].deployment == r && rs[k].id == row.workflow
    && var t := TablesAfter(rs[..k]);
       && row.workflow in t.definitions
       && row.environment == t.definitions[row.workflow].config.environment
       && CompiledFrom(row.manifest, t.definitions[row.workflow].config)
  }

  ghost predicate SameRevision(a: RevisionRow, b: RevisionRow) {
    a.workflow == b.workflow && a.environment == b.environment && a.manifest == b.manifest
  }

  ghost predicate KeepsRevisions(t: Tables, t': Tables) {
    forall r :: r in t'.revisions ==> r in t.revisions && SameRevision(t'.revisions[r], t.revisions[r])
  }

  lemma DeployMakes(t: Tables, id: string, deployment: string, secret: bool, r: string)
    requires Deploy(t, id, deployment, secret).Some? && r in Deploy(t, id, deployment, secret).value.revisions
    ensures var row := Deploy(t, id, deployment, secret).value.revisions[r];
            if r == deployment then
              && row.workflow == id && id in t.definitions
              && row.environment == t.definitions[id].config.environment
              && CompiledFrom(row.manifest, t.definitions[id].config)
            else r in t.revisions && row == t.revisions[r]
  {
    hide Sync, Compile;
    if r == deployment {
      var ensured := EnsureLineage(t, id);
      var m := Deploy(t, id, deployment, secret).value.revisions[r].manifest;
      CompileOnlyCertified(ensured.certs[id].status == CertCertified, t.definitions[id].config.graph,
                           ensured.definitions[id].metadata, secret, m);
    }
  }

  lemma ActivateKeeps(t: Tables, d: string)
    requires Activate(t, d).Some?
    ensures KeepsRevisions(t, Activate(t, d).value)
  {
    hide HasPassingRun, Rival;
  }

  // Only deployments make revisions, and nothing changes what they were made as.
  lemma OthersKeepRevisions(s: State, q: Request)
    requires !q.PostDeployment?
    ensures KeepsRevisions(s.tables, Serve(s, q).tables)
  {
    hide PostedGraph, PostedConfig, PostedMetadata, PostedHash, Certifies, MaxNumber, MayBecome, Count,
         SuiteVerdict, Activate;
    if q.PostActivation? && Activate(s.tables, q.deployment).Some? {
      ActivateKeeps(s.tables, q.deployment);
    }
  }

  // The request makes the revision.
  ghost predicate DeployedLast(s: State, q: Request, r: string) {
    && r in Serve(s, q).tables.revisions
    && q.PostDeployment? && q.deployment == r
    && var row := Serve(s, q).tables.revisions[r];
       && q.id == row.workflow && row.workflow in s.tables.definitions
       && row.environment == s.tables.definitions[row.workflow].config.environment
       && CompiledFrom(row.manifest, s.tables.definitions[row.workflow].config)
  }

  lemma RevisionKept(s: State, q: Request, r: string)
    requires r in Serve(s, q).tables.revisions && !DeployedLast(s, q, r)
    ensures r in s.tables.revisions && SameRevision(Serve(s, q).tables.revisions[r], s.tables.revisions[r])
  {
    hide Deploy, CompiledFrom;
    if q.PostDeployment? {
      if q.id != "" && Deploy(s.tables, q.id, q.deployment, q.secret).Some? {
        DeployMakes(s.tables, q.id, q.deployment, q.secret, r);
      }
    } else {
      OthersKeepRevisions(s, q);
    }
  }

  lemma {:induction false} RevisionMade(rs: seq<Request>, r: string) returns (k: nat)
    requires r in TablesAfter(rs).revisions
    ensures k < |rs| && MadeBy(rs, k, r, TablesAfter(rs).revisions[r])
    decreases |rs|
  {
    hide Serve, CompiledFrom, KeepsRevisions;
    var front, last := rs[..|rs| - 1], rs[|rs| - 1];
    var s := ServeAll(INITIAL, front);
    assert ServeAll(INITIAL, rs) == Serve(s, last);
    if DeployedLast(s, last, r) {
      k := |rs| - 1;
      assert rs[..k] == front;
    } else {
      RevisionKept(s, last, r);
      k := RevisionMade(front, r);
      assert front[..k] == rs[..k] && front[k] == rs[k];
    }
  }

  // --- Passing runs -------------------------------------------------------------------------------

  // A request that reports a run of a suite on the deployment, of at least one case, all of
  // which passed.
  ghost predicate PassingRun(q: Request, deployment: string) {
    q.PostScenarioRun? && q.deployment == deployment && q.results != [] && forall b :: b in q.results ==> b
  }

  lemma OthersKeepScenarios(s: State, q: Request, x: ScenarioRow)
    requires x in Serve(s, q).tables.scenarios && x.pass
    ensures x in s.tables.scenarios || PassingRun(q, x.deployment)
  {
    hide PostedGraph, PostedConfig, PostedMetadata, PostedHash, Certifies, MaxNumber, MayBecome, Count,
         SuiteVerdict, Compile, RetireOthers;
    if q.PostScenarioRun? {
      VerdictIsAll(q.results);
    }
  }

  lemma {:induction false} PassRequested(rs: seq<Request>, x: ScenarioRow)
    requires x in TablesAfter(rs).scenarios && x.pass
    ensures exists k :: 0 <= k < |rs| && PassingRun(rs[k], x.deployment)
    decreases |rs|
  {
    hide Serve, PassingRun;
    var front, last := rs[..|rs| - 1], rs[|rs| - 1];
    var s := ServeAll(INITIAL, front);
    assert ServeAll(INITIAL, rs) == Serve(s, last);
    OthersKeepScenarios(s, last, x);
    if PassingRun(last, x.deployment) {
      assert rs[|rs| - 1] == last;
    } else {
      PassRequested(front, x);
      var k :| 0 <= k < |front| && PassingRun(front[k], x.deployment);
      assert rs[k] == front[k];
    }
  }

  lemma SaysWhere(config: Config, x: Posted)
    requires Says(config, x)
    ensures config.environment == x.environment
  {
  }

  // Every revision runs in the environment its definition was last posted with when it was
  // deployed. If that is production, it is active only after a scenario run on it was
  // reported in which there was a case and every case passed.
  lemma RevisionsRunWherePosted(rs: seq<Request>, r: string) returns (k: nat, x: Posted)
    requires r in TablesAfter(rs).revisions
    ensures k < |rs| && rs[k].PostDeployment? && rs[k].deployment == r
    ensures var row := TablesAfter(rs).revisions[r];
            && rs[k].id == row.workflow
            && LastPost(rs[..k], row.workflow) == Some(x)
            && row.environment == x.environment
            && (x.environment == "production" && row.status == RevActive ==>
                  exists j :: 0 <= j < |rs| && PassingRun(rs[j], r))
  {
    hide ServeAll, CompiledFrom, PassingRun, LastPost, Says;
    k := RevisionMade(rs, r);
    var row := TablesAfter(rs).revisions[r];
    LastPostStored(rs[..k], row.workflow);
    x := LastPost(rs[..k], row.workflow).value;
    assert row.environment == x.environment by {
      SaysWhere(TablesAfter(rs[..k]).definitions[row.workflow].config, x);
    }
    if row.environment == "production" && row.status == RevActive {
      ServeAllGood(rs);
      assert HasPassingRun(TablesAfter(rs), r);
      var y :| y in TablesAfter(rs).scenarios && y.deployment == r && y.pass;
      PassRequested(rs, y);
    }
  }
}
