// Deployments that are not atomic: the endpoint reads the definition, then its certification,
// then inserts the revision, and compares no hash (intelliguard/api/main.py:784-850,
// runtime/manifest_compiler.py:120).
module ControlSplitDeploy {
  import opened Outcomes
  import opened Json
  import opened WorkflowGraph
  import opened WorkflowEvaluators
  import opened ManifestCompiler
  import opened ControlTables
  import opened ControlPlane
  import opened ControlTheorems
  import opened ControlSplit

  // A deployment in flight: the definition it read, and the certification once it has.
  datatype Deploying = Deploying(id: string, row: DefinitionRow, seen: Option<CertRow>)

  datatype DeployEvent =
    | Ordinary(event: Event)
    | ReadDefinition(request: nat, id: string)
    | ReadCertificate(request: nat)
    | Insert(request: nat, deployment: string, secret: bool)

  datatype DeployState = DeployState(split: SplitState, deploying: map<nat, Deploying>)

  const DEPLOY_START := DeployState(START, map[])

  function WithTables(s: DeployState, t: Tables): SplitState {
    s.split.(plane := s.split.plane.(tables := t))
  }

  function ReadDefinitionNext(s: DeployState, q: nat, id: string): DeployState {
    var t := s.split.plane.tables;
    if id == "" || id !in t.definitions || q in s.deploying then s
    else
      var ensured := EnsureLineage(t, id);
      DeployState(WithTables(s, ensured), s.deploying[q := Deploying(id, ensured.definitions[id], None)])
  }

  // Without a certification record the request ends.
  function ReadCertificateNext(s: DeployState, q: nat): DeployState {
    if q !in s.deploying || s.deploying[q].seen.Some? then s
    else if s.deploying[q].id !in s.split.plane.tables.certs then s.(deploying := s.deploying - {q})
    else s.(deploying := s.deploying[q := s.deploying[q].(seen := Some(s.split.plane.tables.certs[s.deploying[q].id]))])
  }

  predicate Seen(s: DeployState, q: nat) {
    q in s.deploying && s.deploying[q].seen.Some?
  }

  // What the compiler makes of what was read.
  function Compiled(s: DeployState, q: nat, secret: bool): Result<Manifest, CompileError>
    requires Seen(s, q)
  {
    var Deploying(_, row, seen) := s.deploying[q];
    Compile(seen.value.status == CertCertified, row.config.graph, row.metadata, secret)
  }

  function InsertNext(s: DeployState, q: nat, deployment: string, secret: bool): DeployState {
    if !Seen(s, q) then s
    else
      var t, Deploying(id, row, _) := s.split.plane.tables, s.deploying[q];
      var rest := s.deploying - {q};
      match Compiled(s, q, secret)
      case Err(_) => s.(deploying := rest)
      case Ok(m) =>
        if deployment in t.revisions then s.(deploying := rest)
        else DeployState(WithTables(s, t.(revisions := t.revisions[deployment := RevisionRow(id, row.config.environment, row.tag, RevPackaged, m)])), rest)
  }

  ghost function DeployNext(s: DeployState, ev: DeployEvent): DeployState {
    match ev
    case Ordinary(e) => s.(split := Next(s.split, e))
    case ReadDefinition(q, id) => ReadDefinitionNext(s, q, id)
    case ReadCertificate(q) => ReadCertificateNext(s, q)
    case Insert(q, deployment, secret) => InsertNext(s, q, deployment, secret)
  }

  ghost function DeployRun(s: DeployState, es: seq<DeployEvent>): DeployState
    decreases |es|
  {
    if |es| == 0 then s else DeployRun(DeployNext(s, es[0]), es[1..])
  }

  // --- Which certificate goes with which configuration --------------------------------------

  // The configuration that the last accepted post on the definition among the events leaves.
  ghost function LastDeployPosted(s: DeployState, es: seq<DeployEvent>, id: string): Option<Config>
    decreases |es|
  {
    if |es| == 0 then None
    else
      var later := LastDeployPosted(DeployNext(s, es[0]), es[1..], id);
      if later.Some? then later else if es[0].Ordinary? then PostedBy(s.split, es[0].event, id) else None
  }

  lemma DeployEventConfig(s: DeployState, ev: DeployEvent, id: string)
    requires id in s.split.plane.tables.definitions
    ensures var t' := DeployNext(s, ev).split.plane.tables;
            && id in t'.definitions
            && t'.definitions[id].config ==
               match (if ev.Ordinary? then PostedBy(s.split, ev.event, id) else None)
               case Some(c) => c
               case None => s.split.plane.tables.definitions[id].config
  {
    hide Next, PostedBy, EnsureLineage, Compile;
    match ev
    case Ordinary(e) => EventConfig(s.split, e, id);
    case ReadDefinition(q, r) =>
      if r in s.split.plane.tables.definitions { EnsureKeepsConfig(s.split.plane.tables, r, id); }
    case ReadCertificate(_) =>
    case Insert(_, _, _) =>
  }

  lemma {:induction false} DeployConfigIsLastPosted(s: DeployState, es: seq<DeployEvent>, id: string)
    requires id in s.split.plane.tables.definitions
    ensures var t' := DeployRun(s, es).split.plane.tables;
            && id in t'.definitions
            && t'.definitions[id].config ==
               match LastDeployPosted(s, es, id) case Some(c) => c case None => s.split.plane.tables.definitions[id].config
    decreases |es|
  {
    hide DeployNext, PostedBy;
    if |es| > 0 {
      DeployEventConfig(s, es[0], id);
      DeployConfigIsLastPosted(DeployNext(s, es[0]), es[1..], id);
    }
  }

  // The deployment keeps what it read until it reads the certification.
  lemma {:induction false} StaysDeploying(s: DeployState, es: seq<DeployEvent>, q: nat)
    requires q in s.deploying && s.deploying[q].seen.None? && ReadCertificate(q) !in es
    ensures q in DeployRun(s, es).deploying && DeployRun(s, es).deploying[q] == s.deploying[q]
    decreases |es|
  {
    hide Next, EnsureLineage, Compile;
    if |es| > 0 {
      assert es[0] in es;
      assert forall ev :: ev in es[1..] ==> ev in es;
      StaysDeploying(DeployNext(s, es[0]), es[1..], q);
    }
  }

  lemma CertIsFresh(s: State, id: string)
    requires Good(s) && id in s.tables.certs && s.tables.certs[id].status == CertCertified
    ensures id in s.tables.definitions && s.tables.certs[id].hash == Digest(s.tables.definitions[id].config)
    ensures s.tables.definitions[id].config in s.certified
  {
    hide Lineage, RevisionsTraced, OneActive, ActiveProved, ScenariosTrue, ConfigsNormal;
    assert CertFresh(s, id);
  }

  // Whatever happens between the two reads of a deployment, if the laws hold when it reads a
  // certification that is CERTIFIED: that is of the configuration to be deployed exactly if no
  // post on the definition was accepted in between, or the last one left it as it was read.
  lemma SplitDeploymentCertifiedIff(s: DeployState, q: nat, id: string, es: seq<DeployEvent>)
    requires id != "" && id in s.split.plane.tables.definitions && q !in s.deploying && ReadCertificate(q) !in es
    requires var s' := DeployRun(DeployNext(s, ReadDefinition(q, id)), es);
             Good(s'.split.plane) && id in s'.split.plane.tables.certs && s'.split.plane.tables.certs[id].status == CertCertified
    ensures var read, reading := s.split.plane.tables.definitions[id].config, DeployNext(s, ReadDefinition(q, id));
            var s' := DeployNext(DeployRun(reading, es), ReadCertificate(q));
            && Seen(s', q) && s'.deploying[q].row.config == read
            && (s'.deploying[q].seen.value.hash == Digest(s'.deploying[q].row.config) <==>
                LastDeployPosted(reading, es, id) in {None, Some(read)})
  {
    hide DeployRun, LastDeployPosted, EnsureLineage, Next, Good;
    var reading := DeployNext(s, ReadDefinition(q, id));
    EnsureKeepsConfig(s.split.plane.tables, id, id);
    StaysDeploying(reading, es, q);
    DeployConfigIsLastPosted(reading, es, id);
    CertIsFresh(DeployRun(reading, es).split.plane, id);
  }

  // --- Guarded deployments keep all the laws --------------------------------------------------

  // Before it inserts a revision the endpoint finds that the certification is of what it read.
  ghost predicate DeployGuarded(s: DeployState, ev: DeployEvent) {
    match ev
    case Ordinary(e) => Guarded(s.split, e)
    case Insert(q, _, _) =>
      Seen(s, q) && s.deploying[q].seen.value.status == CertCertified ==>
        s.deploying[q].seen.value.hash == Digest(s.deploying[q].row.config)
    case _ => true
  }

  ghost predicate AllDeployGuarded(s: DeployState, es: seq<DeployEvent>)
    decreases |es|
  {
    |es| == 0 || (DeployGuarded(s, es[0]) && AllDeployGuarded(DeployNext(s, es[0]), es[1..]))
  }

  ghost predicate CertTraced(certified: set<Config>, seen: Option<CertRow>) {
    seen.Some? && seen.value.status == CertCertified ==> seen.value.hash.of in certified
  }

  // A certificate that a deployment saw was given to a configuration that was evaluated.
  ghost predicate SeenTraced(s: DeployState) {
    forall q :: q in s.deploying ==> CertTraced(s.split.plane.certified, s.deploying[q].seen)
  }

  ghost predicate DeployGood(s: DeployState) {
    Good(s.split.plane) && PendingKnown(s.split) && SeenTraced(s)
  }

  // A packaged revision of an evaluated configuration is added.
  lemma InsertGood(s: State, deployment: string, row: RevisionRow)
    requires Good(s) && deployment !in s.tables.revisions && row.status == RevPackaged && Provenance(s, row.manifest)
    ensures Good(s.(tables := s.tables.(revisions := s.tables.revisions[deployment := row])))
  {
    hide Lineage, NormalOnce, Certifies, Compile, HasPassingRun;
    var s' := s.(tables := s.tables.(revisions := s.tables.revisions[deployment := row]));
    SameRowsSameLineage(s.tables, s'.tables);
    forall q | q in s'.tables.certs
      ensures CertFresh(s', q)
    {
      assert CertFresh(s, q);
    }
    forall r | r in s'.tables.revisions
      ensures Provenance(s', s'.tables.revisions[r].manifest)
    {
      if r != deployment {
        ProvenanceStays(s, s', s.tables.revisions[r].manifest);
      } else {
        ProvenanceStays(s, s', row.manifest);
      }
    }
    forall r
      ensures HasPassingRun(s'.tables, r) <==> HasPassingRun(s.tables, r)
    {
      SameScenarios(s.tables, s'.tables, r);
    }
    assert ActiveProved(s'.tables) && OneActive(s'.tables);
  }

  lemma IsCompiledFrom(m: Manifest, config: Config)
    requires Compile(true, config.graph, m.metadata, false) == Ok(m)
    ensures CompiledFrom(m, config)
  {
    hide Compile;
  }

  lemma PendingStays(s: SplitState, s': SplitState)
    requires PendingKnown(s) && s'.pending == s.pending && s'.plane.tables.definitions.Keys >= s.plane.tables.definitions.Keys
    ensures PendingKnown(s')
  {
  }

  lemma InsertKeepsGood(s: DeployState, q: nat, deployment: string, secret: bool)
    requires DeployGood(s) && DeployGuarded(s, Insert(q, deployment, secret))
    ensures DeployGood(InsertNext(s, q, deployment, secret))
  {
    hide Good, PendingKnown, Compile, CompiledFrom;
    if Seen(s, q) && Compiled(s, q, secret).Ok? && deployment !in s.split.plane.tables.revisions {
      var Deploying(id, row, seen) := s.deploying[q];
      var m := Compiled(s, q, secret).value;
      CompileOnlyCertified(seen.value.status == CertCertified, row.config.graph, row.metadata, secret, m);
      assert CertTraced(s.split.plane.certified, seen);
      IsCompiledFrom(m, row.config);
      assert Provenance(s.split.plane, m);
      InsertGood(s.split.plane, deployment, RevisionRow(id, row.config.environment, row.tag, RevPackaged, m));
    }
    PendingStays(s.split, InsertNext(s, q, deployment, secret).split);
  }

  // No event takes a configuration out of the history of evaluated ones.
  lemma CertifiedGrows(s: SplitState, ev: Event)
    ensures s.plane.certified <= Next(s, ev).plane.certified
  {
    hide Upsert, NewVersion, Transition, Deploy, RunScenarios, Activate, EnsureLineage, Certifies;
  }

  lemma DeployEventGood(s: DeployState, ev: DeployEvent)
    requires DeployGood(s) && DeployGuarded(s, ev)
    ensures DeployGood(DeployNext(s, ev))
  {
    hide Good, PendingKnown, Next, Guarded, InsertNext, EnsureLineage;
    match ev
    case Ordinary(e) =>
      EventGood(s.split, e);
      EventKeepsPending(s.split, e);
      CertifiedGrows(s.split, e);
    case ReadDefinition(q, id) =>
      if id in s.split.plane.tables.definitions {
        ReadGood(s.split.plane, id);
        PendingStays(s.split, WithTables(s, EnsureLineage(s.split.plane.tables, id)));
      }
    case ReadCertificate(q) =>
      if q in s.deploying && s.deploying[q].id in s.split.plane.tables.certs
         && s.split.plane.tables.certs[s.deploying[q].id].status == CertCertified {
        CertIsFresh(s.split.plane, s.deploying[q].id);
      }
    case Insert(q, deployment, secret) => InsertKeepsGood(s, q, deployment, secret);
  }

  // Over every interleaving of requests, evaluations and deployments in which evaluations
  // certify, and deployments insert, only what they read, every law of the control plane holds.
  lemma {:induction false} GuardedDeploysGood(s: DeployState, es: seq<DeployEvent>)
    requires DeployGood(s) && AllDeployGuarded(s, es)
    ensures DeployGood(DeployRun(s, es))
    decreases |es|
  {
    hide DeployGood, DeployNext, DeployGuarded;
    if |es| > 0 {
      DeployEventGood(s, es[0]);
      GuardedDeploysGood(DeployNext(s, es[0]), es[1..]);
    }
  }

  lemma StartedDeploysGood(es: seq<DeployEvent>)
    requires AllDeployGuarded(DEPLOY_START, es)
    ensures Good(DeployRun(DEPLOY_START, es).split.plane)
  {
    hide Good, PendingKnown, DeployRun, AllDeployGuarded;
    StartGood();
    GuardedDeploysGood(DEPLOY_START, es);
  }

  // --- An undisturbed deployment ----------------------------------------------------------------

  lemma EnsureTwice(t: Tables, id: string)
    requires Lineage(t) && id in t.definitions
    ensures Lineage(EnsureLineage(t, id)) && EnsureLineage(EnsureLineage(t, id), id) == EnsureLineage(t, id)
  {
    hide Lineage, EnsureLineage;
    EnsureKeepsLineage(t, id);
    EnsureNames(t, id);
    var once := EnsureLineage(t, id);
    EnsureNames(once, id);
    assert once.definitions[id := once.definitions[id]] == once.definitions;
  }

  lemma DeployFromEnsured(t: Tables, id: string, deployment: string, secret: bool)
    requires id in t.definitions && EnsureLineage(t, id) == t
    ensures Deploy(t, id, deployment, secret) ==
            if id !in t.certs || deployment in t.revisions then None
            else match Compile(t.certs[id].status == CertCertified, t.definitions[id].config.graph, t.definitions[id].metadata, secret)
              case Err(_) => None
              case Ok(m) =>
                var d := t.definitions[id];
                Some(t.(revisions := t.revisions[deployment := RevisionRow(id, d.config.environment, d.tag, RevPackaged, m)]))
  {
    hide EnsureLineage, Compile;
  }

  lemma LineageOfGood(s: State)
    requires Good(s)
    ensures Lineage(s.tables)
  {
  }

  lemma RunThree(s: DeployState, a: DeployEvent, b: DeployEvent, c: DeployEvent)
    ensures DeployRun(s, [a, b, c]) == DeployNext(DeployNext(DeployNext(s, a), b), c)
  {
    hide DeployNext;
    var es := [a, b, c];
    assert es[1..] == [b, c] && es[1..][1..] == [c] && es[1..][1..][1..] == [];
    var s2 := DeployNext(DeployNext(s, a), b);
    assert DeployRun(s2, es[1..][1..]) == DeployNext(s2, c);
  }

  lemma ServeDeploy(s: State, id: string, deployment: string, secret: bool)
    requires id != "" && id in s.tables.definitions
    ensures Serve(Serve(s, GetDefinition(id)), PostDeployment(id, deployment, secret)) ==
            var s1 := s.(tables := EnsureLineage(s.tables, id));
            OrSame(s1, Deploy(s1.tables, id, deployment, secret))
  {
    hide EnsureLineage, Deploy, Upsert, NewVersion, Transition, RunScenarios, Activate, Certifies;
  }

  // The three steps, from tables that name the label.
  lemma ThreeSteps(s: DeployState, q: nat, id: string, deployment: string, secret: bool)
    requires id != "" && id in s.split.plane.tables.definitions && q !in s.deploying
    requires EnsureLineage(EnsureLineage(s.split.plane.tables, id), id) == EnsureLineage(s.split.plane.tables, id)
    ensures var t1 := EnsureLineage(s.split.plane.tables, id);
            InsertNext(ReadCertificateNext(ReadDefinitionNext(s, q, id), q), q, deployment, secret) ==
            s.(split := s.split.(plane := OrSame(s.split.plane.(tables := t1), Deploy(t1, id, deployment, secret))))
  {
    hide EnsureLineage, Compile, Deploy;
    var t1 := EnsureLineage(s.split.plane.tables, id);
    DeployFromEnsured(t1, id, deployment, secret);
    var s1 := ReadDefinitionNext(s, q, id);
    var s2 := ReadCertificateNext(s1, q);
    assert s1.deploying - {q} == s.deploying && s2.deploying - {q} == s.deploying;
  }

  // A deployment with nothing in between is the read and the atomic deployment.
  lemma UndisturbedDeployIsAtomic(s: DeployState, q: nat, id: string, deployment: string, secret: bool)
    requires Good(s.split.plane) && id != "" && id in s.split.plane.tables.definitions && q !in s.deploying
    ensures DeployRun(s, [ReadDefinition(q, id), ReadCertificate(q), Insert(q, deployment, secret)]) ==
            s.(split := s.split.(plane := Serve(Serve(s.split.plane, GetDefinition(id)), PostDeployment(id, deployment, secret))))
  {
    hide Good, EnsureLineage, DeployRun, Serve, OrSame, Deploy, Next, ReadDefinitionNext, ReadCertificateNext,
         InsertNext;
    LineageOfGood(s.split.plane);
    EnsureTwice(s.split.plane.tables, id);
    RunThree(s, ReadDefinition(q, id), ReadCertificate(q), Insert(q, deployment, secret));
    ThreeSteps(s, q, id, deployment, secret);
    ServeDeploy(s.split.plane, id, deployment, secret);
  }
}
