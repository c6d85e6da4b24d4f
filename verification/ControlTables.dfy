// Workflow definitions, their versions and certifications, and deployment revisions
// (intelliguard/persistence/store.py:75-98, 580-863, 1975-2023, 2194-2205, 2870-2933).
module ControlTables {
  import opened Outcomes
  import opened Json
  import opened WorkflowGraph
  import opened WorkflowEvaluators
  import opened ManifestCompiler

  datatype Lifecycle = Draft | InReview | Certified | Packaged | Deployed | Active | Retired | Archived

  // WORKFLOW_LIFECYCLE_TRANSITIONS
  predicate MayBecome(current: Lifecycle, target: Lifecycle) {
    match current
    case Draft => target in {InReview, Archived}
    case InReview => target in {Certified, Draft, Archived}
    case Certified => target in {Packaged, Archived}
    case Packaged => target in {Deployed, Archived}
    case Deployed => target in {Active, Archived}
    case Active => target == Retired
    case Retired => target == Archived
    case Archived => false
  }

  // WORKFLOW_LOCKED_LIFECYCLE_STATUSES
  predicate LockedStatus(s: Lifecycle) {
    s != Draft && s != InReview
  }

  // What the configuration hash is taken of.
  datatype Config = Config(
    graph: Graph,
    steps: Value,
    environment: string,
    domain: Value,
    leadAgentId: string,
    bindings: Value,
    rules: Value)

  // SHA-256 as an injective function.
  datatype Digest = Digest(of: Config)

  // The graph hash of a definition: one the caller gave, or the hash of the graph.
  datatype GraphHash = Given(text: string) | HashOf(graph: Graph)

  // The metadata column repeats the graph hash of its row; that entry is not repeated here.
  datatype DefinitionRow = DefinitionRow(
    config: Config,
    metadata: Dict,
    graphHash: GraphHash,
    root: string,
    tag: string,
    number: nat,
    previous: Option<string>,
    status: Lifecycle,
    locked: bool)

  datatype VersionRow = VersionRow(root: string, tag: string, number: nat, previous: Option<string>, status: Lifecycle)

  datatype CertStatus = CertDraft | CertEvaluating | CertCertified | CertFailed | CertStale

  datatype CertRow = CertRow(status: CertStatus, hash: Digest)

  datatype RevisionStatus = RevPackaged | RevActive | RevRetired

  datatype RevisionRow = RevisionRow(workflow: string, environment: string, tag: string, status: RevisionStatus, manifest: Manifest)

  datatype ScenarioRow = ScenarioRow(deployment: string, total: nat, passed: nat, pass: bool)

  // Version rows and certifications are unique per definition, so they are kept by its id.
  datatype Tables = Tables(
    definitions: map<string, DefinitionRow>,
    versions: map<string, VersionRow>,
    certs: map<string, CertRow>,
    revisions: map<string, RevisionRow>,
    scenarios: seq<ScenarioRow>)

  const EMPTY := Tables(map[], map[], map[], map[], [])

  // definition.version or "v1"
  function Reported(tag: string): string {
    if tag == "" then "v1" else tag
  }

  // definition.workflow_root_id or definition.workflow_definition_id
  function RootOf(id: string, d: DefinitionRow): string {
    if d.root == "" then id else d.root
  }

  // _sync_workflow_definition_version
  function Sync(t: Tables, id: string): (t': Tables)
    requires id in t.definitions
    ensures t'.definitions == t.definitions && t'.certs == t.certs && t'.revisions == t.revisions && t'.scenarios == t.scenarios
  {
    var d := t.definitions[id];
    var tag := if d.tag != "" then d.tag else if id in t.versions then t.versions[id].tag else "v1";
    t.(versions := t.versions[id := VersionRow(RootOf(id, d), tag, d.number, d.previous, d.status)])
  }

  // _ensure_workflow_lineage; numbers of stored definitions are not zero.
  function EnsureLineage(t: Tables, id: string): (t': Tables)
    requires id in t.definitions
    ensures t'.definitions.Keys == t.definitions.Keys && t'.certs == t.certs
    ensures t'.revisions == t.revisions && t'.scenarios == t.scenarios
    ensures t'.definitions[id].status == t.definitions[id].status && t'.definitions[id].locked == t.definitions[id].locked
    ensures t'.definitions[id].config == t.definitions[id].config
  {
    var d := t.definitions[id];
    var number := if d.number == 0 then 1 else d.number;
    Sync(t.(definitions := t.definitions[id := d.(root := RootOf(id, d), tag := Reported(d.tag), number := number)]), id)
  }

  // _invalidate_workflow_cert_if_certified
  function Invalidate(t: Tables, id: string): Tables {
    if id in t.certs && t.certs[id].status != CertDraft && t.certs[id].status != CertStale
    then t.(certs := t.certs[id := t.certs[id].(status := CertStale)])
    else t
  }

  // --- Upsert -------------------------------------------------------------------------

  datatype Posted = Posted(
    payload: Payload,
    environment: string,
    domain: Value,
    bindings: Value,
    rules: Value,
    graphHash: Option<string>)

  // The agents a payload names, as they are written.
  function AgentsNamed(p: Payload): set<string> {
    var steps := if p.steps.Some? && p.steps.value.List? then Dicts(p.steps.value.items) else [];
    var nodes := if p.nodes.List? then Dicts(p.nodes.items) else [];
    {p.leadAgentId} + (set d | d in steps + nodes && Truthy(Get(d, AgentId)) :: Shown(Get(d, AgentId)))
  }

  function TypesNamed(p: Payload, registered: map<string, string>): map<string, string> {
    map a | a in AgentsNamed(p) && a in registered :: registered[a]
  }

  // The graph of a payload, if all its agents are registered and it normalises; metadata
  // that is no dict cannot be copied.
  function PostedGraph(x: Posted, registered: map<string, string>): Option<Graph> {
    if !(AgentsNamed(x.payload) <= registered.Keys) then None
    else if Truthy(x.payload.metadata) && !x.payload.metadata.Object? then None
    else match Normalized(x.payload, Registry(VOCABULARY, TypesNamed(x.payload, registered)))
      case Err(_) => None
      case Ok(g) => Some(g)
  }

  // What the payload says, or else its metadata, or else the default.
  function PostedOr(v: Value, metadata: Dict, k: Key, default: Value): Value {
    Or(Or(v, Get(metadata, k)), default)
  }

  function PostedConfig(x: Posted, g: Graph): Config {
    var metadata, none := DictOrEmpty(x.payload.metadata), Object(map[], "{}");
    Config(g,
           Or(if x.payload.steps.Some? then x.payload.steps.value else Null, List([], "[]")),
           x.environment,
           PostedOr(x.domain, metadata, Domain, String("general")),
           x.payload.leadAgentId,
           PostedOr(x.bindings, metadata, PolicyBindings, none),
           PostedOr(x.rules, metadata, ReviewRules, none))
  }

  function PostedMetadata(x: Posted): Dict {
    var metadata := DictOrEmpty(x.payload.metadata);
    metadata[Domain := PostedOr(x.domain, metadata, Domain, String("general"))] - {GraphVersionHash}
  }

  function PostedHash(x: Posted, g: Graph): GraphHash {
    if x.graphHash.Some? && x.graphHash.value != "" then Given(x.graphHash.value) else HashOf(g)
  }

  function NewDefinition(id: string, x: Posted, g: Graph): DefinitionRow {
    DefinitionRow(PostedConfig(x, g), PostedMetadata(x), PostedHash(x, g), id, "v1", 1, None, Draft, false)
  }

  function Edited(d: DefinitionRow, x: Posted, g: Graph): DefinitionRow {
    d.(config := PostedConfig(x, g), metadata := PostedMetadata(x), graphHash := PostedHash(x, g))
  }

  function Upsert(t: Tables, id: string, x: Posted, registered: map<string, string>): Option<Tables> {
    match PostedGraph(x, registered)
    case None => None
    case Some(g) =>
      if id !in t.definitions then Some(Sync(t.(definitions := t.definitions[id := NewDefinition(id, x, g)]), id))
      else
        var ensured := EnsureLineage(t, id);
        var d := ensured.definitions[id];
        if d.locked || LockedStatus(d.status) then None
        else Some(Sync(Invalidate(ensured.(definitions := ensured.definitions[id := Edited(d, x, g)]), id), id))
  }

  // --- Versions and lifecycle ------------------------------------------------------------

  function NumbersUnder(t: Tables, root: string): set<nat> {
    set id | id in t.definitions && t.definitions[id].root == root :: t.definitions[id].number
  }

  predicate IsLargest(m: nat, s: set<nat>) {
    m in s && forall n | n in s :: n <= m
  }

  lemma {:induction false} LargestExists(s: set<nat>)
    requires s != {}
    ensures exists m :: IsLargest(m, s)
  {
    var x :| x in s;
    var rest := s - {x};
    assert forall n | n in s :: n == x || n in rest;
    if rest == {} {
      assert IsLargest(x, s);
    } else {
      LargestExists(rest);
      var m :| IsLargest(m, rest);
      if x > m {
        assert IsLargest(x, s);
      } else {
        assert IsLargest(m, s);
      }
    }
  }

  function Largest(s: set<nat>): (m: nat)
    requires s != {}
    ensures IsLargest(m, s)
  {
    LargestExists(s);
    var m :| m in s && IsLargest(m, s);
    m
  }

  // The largest number under a root, or 0.
  function MaxNumber(t: Tables, root: string): nat {
    if NumbersUnder(t, root) == {} then 0 else Largest(NumbersUnder(t, root))
  }

  function NewVersion(t: Tables, source: string, id: string, tag: string): Option<Tables> {
    if source !in t.definitions then None
    else
      var ensured := EnsureLineage(t, source);
      if id in ensured.definitions then None
      else
        var d := ensured.definitions[source];
        var max := MaxNumber(ensured, d.root);
        var number := (if max == 0 then 1 else max) + 1;
        var metadata := d.metadata[VersionCreatedFrom := String(source)];
        var row := DefinitionRow(d.config, metadata, d.graphHash, RootOf(source, d), tag, number, Some(source), Draft, false);
        Some(Sync(Sync(ensured.(definitions := ensured.definitions[id := row]), source), id))
  }

  function Transition(t: Tables, id: string, target: Lifecycle): Option<Tables> {
    if id !in t.definitions then None
    else
      var ensured := EnsureLineage(t, id);
      var d := ensured.definitions[id];
      if !MayBecome(d.status, target) then None
      else
        var moved := d.(status := target, locked := d.locked || LockedStatus(target));
        Some(Sync(ensured.(definitions := ensured.definitions[id := moved]), id))
  }

  // --- Certification ------------------------------------------------------------------------

  function SetCert(t: Tables, id: string, status: CertStatus, hash: Digest): Tables {
    t.(certs := t.certs[id := CertRow(status, hash)])
  }

  // VALID_TRANSITIONS of the certification status.
  predicate ValidTransition(current: CertStatus, next: CertStatus) {
    match current
    case CertDraft => next == CertEvaluating
    case CertEvaluating => next in {CertCertified, CertFailed}
    case CertCertified => next in {CertEvaluating, CertStale}
    case CertFailed => next == CertEvaluating
    case CertStale => next == CertEvaluating
  }

  // The first half of an evaluation: the record is created if need be and set to EVALUATING.
  function BeginEvaluation(t: Tables, id: string): Option<Tables> {
    if id !in t.definitions then None
    else
      var ensured := EnsureLineage(t, id);
      Some(SetCert(ensured, id, CertEvaluating, Digest(ensured.definitions[id].config)))
  }

  // The second half writes its result whatever the record says by then; read is the
  // configuration the evaluation read at its start.
  function EndEvaluation(t: Tables, id: string, read: Config, certifiable: bool): Tables {
    SetCert(t, id, if certifiable then CertCertified else CertFailed, Digest(read))
  }

  // --- Deployments ---------------------------------------------------------------------------

  function Deploy(t: Tables, id: string, deployment: string, secret: bool): Option<Tables> {
    if id !in t.definitions then None
    else
      var ensured := EnsureLineage(t, id);
      var d := ensured.definitions[id];
      if id !in ensured.certs || deployment in ensured.revisions then None
      else match Compile(ensured.certs[id].status == CertCertified, d.config.graph, d.metadata, secret)
        case Err(_) => None
        case Ok(m) =>
          Some(ensured.(revisions := ensured.revisions[deployment := RevisionRow(id, d.config.environment, d.tag, RevPackaged, m)]))
  }

  // r is another active revision of the same workflow and environment.
  predicate Rival(revisions: map<string, RevisionRow>, deployment: string, r: string)
    requires deployment in revisions && r in revisions
  {
    && r != deployment && revisions[r].status == RevActive
    && revisions[r].workflow == revisions[deployment].workflow
    && revisions[r].environment == revisions[deployment].environment
  }

  // Every other active revision of the workflow and environment is retired.
  function RetireOthers(revisions: map<string, RevisionRow>, deployment: string): map<string, RevisionRow>
    requires deployment in revisions
  {
    map r | r in revisions :: if Rival(revisions, deployment, r) then revisions[r].(status := RevRetired) else revisions[r]
  }

  predicate HasPassingRun(t: Tables, deployment: string) {
    exists s | s in t.scenarios :: s.deployment == deployment && s.pass
  }

  const PRODUCTION := "production"

  function Activate(t: Tables, deployment: string): Option<Tables> {
    if deployment !in t.revisions then None
    else
      var row := t.revisions[deployment];
      if row.environment == PRODUCTION && !HasPassingRun(t, deployment) then None
      else if row.status == RevRetired then None
      else
        var others := RetireOthers(t.revisions, deployment);
        Some(t.(revisions := others[deployment := row.(status := RevActive)]))
  }

  function Count(results: seq<bool>): (n: nat)
    ensures n <= |results|
  {
    if |results| == 0 then 0 else Count(results[..|results| - 1]) + (if results[|results| - 1] then 1 else 0)
  }

  // total and passed / total >= threshold; the stored suite has lost its threshold, so that
  // it is always 1.
  function SuiteVerdict(results: seq<bool>): bool {
    var total := |results|;
    var passed := Count(results);
    total > 0 && (passed as real) / (total as real) >= 1.0
  }

  function RunScenarios(t: Tables, deployment: string, results: seq<bool>): Option<Tables> {
    if deployment !in t.revisions then None
    else Some(t.(scenarios := t.scenarios + [ScenarioRow(deployment, |results|, Count(results), SuiteVerdict(results))]))
  }
}
