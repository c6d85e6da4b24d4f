// The control plane as a state machine over atomic API requests
// (intelliguard/api/main.py:689-870, 983-1058, 494-526).
module ControlPlane {
  import opened Outcomes
  import opened Json
  import opened WorkflowGraph
  import opened WorkflowEvaluators
  import opened ManifestCompiler
  import opened ControlTables
  import Laws = WorkflowGraphLaws

  // The endpoints on one definition read it first: that read is a request of its own, which
  // names an empty label even if the rest fails.
  datatype Request =
    | GetDefinition(id: string)
    | PostDefinition(id: string, posted: Posted, registered: map<string, string>)
    | PostVersion(source: string, id: string, tag: string)
    | PostLifecycle(id: string, target: Lifecycle)
    | PostEvaluation(id: string, assignments: Assignments)
    | PostDeployment(id: string, deployment: string, secret: bool)
    | PostScenarioRun(deployment: string, results: seq<bool>)
    | PostActivation(deployment: string)

  // `certified` is history: the configurations that were evaluated as certified.
  datatype State = State(tables: Tables, certified: set<Config>)

  const INITIAL := State(EMPTY, {})

  ghost predicate Certifies(config: Config, a: Assignments) {
    Certifiable(config.graph, a, VOCABULARY)
  }

  function OrSame(s: State, t: Option<Tables>): State {
    if t.Some? then s.(tables := t.value) else s
  }

  // A request is taken as a whole; one that fails changes nothing. The ids of all requests
  // but the posts of definitions and scenario runs are path parameters: no route takes an
  // empty one.
  ghost function Serve(s: State, r: Request): State {
    match r
    case GetDefinition(id) => if id == "" || id !in s.tables.definitions then s else s.(tables := EnsureLineage(s.tables, id))
    case PostDefinition(id, x, registered) => OrSame(s, Upsert(s.tables, id, x, registered))
    case PostVersion(source, id, tag) => if source == "" then s else OrSame(s, NewVersion(s.tables, source, id, tag))
    case PostLifecycle(id, target) => if id == "" then s else OrSame(s, Transition(s.tables, id, target))
    case PostEvaluation(id, a) =>
      if id == "" || id !in s.tables.definitions then s
      else
        var config := s.tables.definitions[id].config;
        State(EndEvaluation(BeginEvaluation(s.tables, id).value, id, config, Certifies(config, a)),
              if Certifies(config, a) then s.certified + {config} else s.certified)
    case PostDeployment(id, d, secret) => if id == "" then s else OrSame(s, Deploy(s.tables, id, d, secret))
    case PostScenarioRun(d, results) => OrSame(s, RunScenarios(s.tables, d, results))
    case PostActivation(d) => OrSame(s, Activate(s.tables, d))
  }

  ghost function ServeAll(s: State, rs: seq<Request>): State
    decreases |rs|
  {
    if |rs| == 0 then s else Serve(ServeAll(s, rs[..|rs| - 1]), rs[|rs| - 1])
  }

  // --- Version lineage ---------------------------------------------------------------

  ghost predicate Family(t: Tables, root: string, id: string) {
    id in t.definitions && t.definitions[id].root == root
  }

  ghost predicate DefinitionOk(t: Tables, id: string)
    requires id in t.definitions
  {
    var d := t.definitions[id];
    && d.number >= 1
    && (d.root == "" ==> id == "")
    && d.root in t.definitions && t.definitions[d.root].root == d.root && t.definitions[d.root].number == 1
    && (LockedStatus(d.status) <==> d.locked)
    && (d.previous.None? <==> d.number == 1)
    && (d.previous.Some? ==> Family(t, d.root, d.previous.value) && t.definitions[d.previous.value].number < d.number)
    && (d.number > 1 ==> exists p :: Family(t, d.root, p) && t.definitions[p].number == d.number - 1)
  }

  predicate SameNumber(a: DefinitionRow, b: DefinitionRow) {
    a.root == b.root && a.number == b.number
  }

  ghost predicate NumbersDiffer(t: Tables) {
    forall a, b :: a in t.definitions && b in t.definitions && SameNumber(t.definitions[a], t.definitions[b]) ==> a == b
  }

  ghost predicate VersionAgrees(t: Tables, id: string)
    requires id in t.definitions
  {
    var d := t.definitions[id];
    id in t.versions && t.versions[id] == VersionRow(d.root, Reported(d.tag), d.number, d.previous, d.status)
  }

  // The version table says what the definitions say; an empty label is reported as "v1".
  ghost predicate VersionsAgree(t: Tables) {
    && t.versions.Keys == t.definitions.Keys
    && forall id :: id in t.definitions ==> VersionAgrees(t, id)
  }

  ghost predicate LinesOk(t: Tables) {
    forall id {:trigger DefinitionOk(t, id)} :: id in t.definitions ==> DefinitionOk(t, id)
  }

  ghost predicate Lineage(t: Tables) {
    && LinesOk(t)
    && NumbersDiffer(t)
    && VersionsAgree(t)
  }

  // --- Certification and deployment ----------------------------------------------------

  ghost predicate NormalWith(g: Graph, types: map<string, string>) {
    Laws.NormalGraph(g, Registry(VOCABULARY, types))
  }

  // The graph was normalised with some registered agent types.
  ghost predicate NormalOnce(g: Graph) {
    exists types :: NormalWith(g, types)
  }

  // A certified record is of the configuration the definition has now.
  ghost predicate CertFresh(s: State, id: string)
    requires id in s.tables.certs
  {
    && id in s.tables.definitions
    && (s.tables.certs[id].status == CertCertified ==>
          && s.tables.certs[id].hash == Digest(s.tables.definitions[id].config)
          && s.tables.definitions[id].config in s.certified)
  }

  ghost predicate CertsFresh(s: State) {
    forall id :: id in s.tables.certs ==> CertFresh(s, id)
  }

  ghost predicate CompiledFrom(m: Manifest, config: Config) {
    Compile(true, config.graph, m.metadata, false) == Ok(m)
  }

  // The manifest of a revision is compiled from a certified configuration.
  ghost predicate Provenance(s: State, m: Manifest) {
    exists config :: config in s.certified && CompiledFrom(m, config)
  }

  // Active revisions of one workflow and environment.
  predicate BothActive(a: RevisionRow, b: RevisionRow) {
    a.status == RevActive && b.status == RevActive && a.workflow == b.workflow && a.environment == b.environment
  }

  ghost predicate OneActive(t: Tables) {
    forall a, b :: a in t.revisions && b in t.revisions && BothActive(t.revisions[a], t.revisions[b]) ==> a == b
  }

  ghost predicate ActiveProved(t: Tables) {
    forall r ::
      r in t.revisions && t.revisions[r].status == RevActive && t.revisions[r].environment == PRODUCTION ==> HasPassingRun(t, r)
  }

  // A passing run has at least one case, and all of its cases passed.
  ghost predicate ScenariosTrue(t: Tables) {
    forall x :: x in t.scenarios && x.pass ==> x.total >= 1 && x.passed == x.total
  }

  ghost predicate ConfigsNormal(s: State) {
    && (forall id :: id in s.tables.definitions ==> NormalOnce(s.tables.definitions[id].config.graph))
    && (forall config :: config in s.certified ==> NormalOnce(config.graph) && exists a :: Certifies(config, a))
  }

  ghost predicate RevisionsTraced(s: State) {
    forall r :: r in s.tables.revisions ==> Provenance(s, s.tables.revisions[r].manifest)
  }

  ghost predicate Good(s: State) {
    && Lineage(s.tables)
    && CertsFresh(s)
    && RevisionsTraced(s)
    && OneActive(s.tables)
    && ActiveProved(s.tables)
    && ScenariosTrue(s.tables)
    && ConfigsNormal(s)
  }
}
