// Executions in which a definition is edited while it is evaluated, and while it is deployed:
// what is deployed then was never evaluated.
module ControlSplitExample {
  import opened Outcomes
  import opened Json
  import opened WorkflowGraph
  import opened WorkflowEvaluators
  import opened ManifestCompiler
  import opened ControlTables
  import opened ControlPlane
  import opened ControlSplit
  import opened ControlSplitDeploy
  import opened GraphExamples
  import Deployed = DeployedGraph
  import Laws = WorkflowGraphLaws

  // The lead node, alone or with a second node, and no edges.
  function SmallNodes(two: bool): seq<Dict> {
    if two then [LeadAt(LEAD_NODE_ID), TaskAt("a")] else [LeadAt(LEAD_NODE_ID)]
  }

  function SmallPost(two: bool): Posted {
    Posted(PlainPayload("l", SmallNodes(two), []), "demo", String("general"), Object(map[], "{}"), Object(map[], "{}"), None)
  }

  lemma SmallAgents(two: bool)
    ensures AgentsNamed(SmallPost(two).payload) == if two then {"l", "t"} else {"l"}
  {
    var p := SmallPost(two).payload;
    DictsOfListed(SmallNodes(two));
    assert [] + SmallNodes(two) == SmallNodes(two);
    assert Get(SmallNodes(two)[0], AgentId) == String("l");
    assert two ==> Get(SmallNodes(two)[1], AgentId) == String("t");
    assert forall d :: d in SmallNodes(two) ==> Get(d, AgentId) == String("l") || (two && Get(d, AgentId) == String("t"));
    assert two ==> SmallNodes(two)[1] in SmallNodes(two) && Shown(Get(SmallNodes(two)[1], AgentId)) == "t";
  }

  lemma SmallWords()
    ensures Word(LEAD_NODE_ID) && Word("l") && Word("a") && Word("t") && LEAD_NODE_ID != "a"
  {
  }

  lemma SmallNormal(two: bool, types: map<string, string>)
    requires "l" in types && types["l"] == LEAD_AGENT && (two ==> "t" in types && types["t"] == "task_agent")
    ensures Laws.NormalGraph(Graph(SmallNodes(two), []), Registry(VOCABULARY, types))
    ensures forall n :: n in SmallNodes(two) ==> Runtime !in n && Metadata !in n
  {
    hide VOCABULARY, Laws.NormalNode, Laws.NormalEdge;
    WordsListed();
    SmallWords();
    PlainNodeNormal(LEAD_NODE_ID, "l", LEAD_AGENT, types);
    if two {
      PlainNodeNormal("a", "t", "task_agent", types);
      assert Get(SmallNodes(two)[0], NodeId) != Get(SmallNodes(two)[1], NodeId);
    }
    assert IsLead(SmallNodes(two)[0]) && SmallNodes(two)[0] in SmallNodes(two);
  }

  lemma SmallGraph(two: bool)
    ensures PostedGraph(SmallPost(two), TYPES) == Some(Graph(SmallNodes(two), []))
    ensures PostedConfig(SmallPost(two), Graph(SmallNodes(two), [])).graph == Graph(SmallNodes(two), [])
  {
    hide VOCABULARY, Sound, SmallNodes, AgentsNamed, Normalized, Laws.NormalGraph;
    var types := TypesNamed(SmallPost(two).payload, TYPES);
    SmallAgents(two);
    AgentsAreWords();
    VocabularySound();
    SmallNormal(two, types);
    NormalFormStays("l", SmallNodes(two), [], Registry(VOCABULARY, types));
  }

  lemma SingleCanonical(g: Graph, n: Dict)
    requires g.nodes == [n] && AgentId in n && n[AgentId].String?
    requires Registered(Registry(VOCABULARY, TYPES), n[AgentId].s)
             == NormalType(VOCABULARY, Registered(Registry(VOCABULARY, TYPES), n[AgentId].s))
    ensures Canonical(g, Registry(VOCABULARY, TYPES))
  {
    hide VOCABULARY, TYPES, NormalType;
  }

  lemma SingleCertified(n: Dict)
    requires TextOf(n, AgentId) in ASSIGNED.certified
    ensures AgentsCertified([n], ASSIGNED.certified)
  {
  }

  // The small graph alone is certified; with a second node nothing certifies it, because no
  // edge leaves the lead.
  lemma OneIsCertified(config: Config)
    requires config.graph == Graph(SmallNodes(false), [])
    ensures Certifies(config, ASSIGNED)
  {
    hide VOCABULARY, Sound, Laws.NormalNode, AgentsCertified, Canonical, Certifiable;
    var g, reg := config.graph, Registry(VOCABULARY, TYPES);
    VocabularySound();
    AgentsAreWords();
    SmallNormal(false, TYPES);
    AgentRegistered(g.nodes[0]);
    OnlyAgents(TextOf(g.nodes[0], AgentId));
    assert Canonical(g, reg) by { SingleCanonical(g, g.nodes[0]); }
    assert AgentsCertified(g.nodes, ASSIGNED.certified) by { SingleCertified(g.nodes[0]); }
    NormalGraphCertifiable(g, reg, ASSIGNED);
  }

  lemma TwoIsNotCertified(config: Config, a: Assignments)
    requires config.graph == Graph(SmallNodes(true), [])
    ensures !Certifies(config, a)
  {
    hide VOCABULARY, TypesMatch, HasLead, AgentsCertified, EdgeInvalid, TaskAt, LeadAt;
  }

  // Definition "w" has its first version, with the small graph, and is unlocked.
  predicate HasSmall(t: Tables, two: bool) {
    && "w" in t.definitions && "w" in t.versions && t.revisions == map[]
    && var d := t.definitions["w"];
       && d.config == PostedConfig(SmallPost(two), Graph(SmallNodes(two), []))
       && d.root == "w" && d.tag == "v1" && d.number == 1 && d.status == Draft && !d.locked
  }

  lemma FirstPost(two: bool)
    ensures var s' := Next(START, Whole(PostDefinition("w", SmallPost(two), TYPES)));
            HasSmall(s'.plane.tables, two) && s'.pending == map[] && s'.plane.certified == {}
  {
    hide PostedGraph, PostedConfig, PostedMetadata, SmallPost, SmallNodes, TYPES;
    SmallGraph(two);
  }

  lemma ReadSmall(s: SplitState)
    requires HasSmall(s.plane.tables, false) && s.pending == map[]
    ensures var s' := Next(s, Read(0, "w"));
            && HasSmall(s'.plane.tables, false)
            && s'.pending == map[0 := Evaluation("w", PostedConfig(SmallPost(false), Graph(SmallNodes(false), [])), false)]
  {
    hide PostedConfig, SmallPost, SmallNodes;
  }

  lemma BeginSmall(s: SplitState, read: Config)
    requires HasSmall(s.plane.tables, false) && s.pending == map[0 := Evaluation("w", read, false)]
    ensures var s' := Next(s, Begin(0));
            HasSmall(s'.plane.tables, false) && s'.pending == map[0 := Evaluation("w", read, true)]
  {
    hide PostedConfig, SmallPost, SmallNodes;
  }

  lemma SecondPost(s: SplitState, two: bool)
    requires HasSmall(s.plane.tables, !two)
    ensures var s' := Next(s, Whole(PostDefinition("w", SmallPost(two), TYPES)));
            HasSmall(s'.plane.tables, two) && s'.pending == s.pending && s'.plane.certified == s.plane.certified
  {
    hide PostedGraph, PostedConfig, PostedMetadata, SmallPost, SmallNodes, TYPES;
    SmallGraph(two);
  }

  lemma FinishSmall(s: SplitState, read: Config)
    requires HasSmall(s.plane.tables, true) && s.pending == map[0 := Evaluation("w", read, true)]
    requires Certifies(read, ASSIGNED)
    ensures var s' := Next(s, Finish(0, ASSIGNED));
            && HasSmall(s'.plane.tables, true)
            && "w" in s'.plane.tables.certs && s'.plane.tables.certs["w"].status == CertCertified
  {
    hide PostedConfig, SmallPost, SmallNodes, Certifies;
  }

  lemma DeploymentServed(s: SplitState)
    requires Deploy(s.plane.tables, "w", "d", false).Some?
    ensures Next(s, Whole(PostDeployment("w", "d", false))).plane.tables == Deploy(s.plane.tables, "w", "d", false).value
  {
    hide Deploy;
  }

  lemma DeploysCompiled(t: Tables, m: Manifest)
    requires HasSmall(t, true) && "w" in t.certs && t.certs["w"].status == CertCertified
    requires Compile(true, t.definitions["w"].config.graph, t.definitions["w"].metadata, false) == Ok(m)
    requires m.metadata == t.definitions["w"].metadata
    ensures Deploy(t, "w", "d", false).Some?
    ensures var t' := Deploy(t, "w", "d", false).value;
            && "d" in t'.revisions && "w" in t'.definitions
            && t'.definitions["w"].config == t.definitions["w"].config
            && CompiledFrom(t'.revisions["d"].manifest, t'.definitions["w"].config)
  {
    hide PostedConfig, SmallPost, SmallNodes, Compile;
  }

  lemma DeploySmall(s: SplitState)
    requires HasSmall(s.plane.tables, true)
    requires "w" in s.plane.tables.certs && s.plane.tables.certs["w"].status == CertCertified
    ensures var t' := Next(s, Whole(PostDeployment("w", "d", false))).plane.tables;
            && "d" in t'.revisions && "w" in t'.definitions
            && t'.definitions["w"].config.graph == Graph(SmallNodes(true), [])
            && CompiledFrom(t'.revisions["d"].manifest, t'.definitions["w"].config)
  {
    hide PostedConfig, SmallPost, SmallNodes, Compile, Laws.NormalGraph, VOCABULARY, TYPES, Next, Deploy,
         CompiledFrom;
    var t := s.plane.tables;
    SmallGraph(true);
    AgentsAreWords();
    SmallNormal(true, TYPES);
    var m := PlainCompiles(t.definitions["w"].config.graph, Registry(VOCABULARY, TYPES), t.definitions["w"].metadata);
    DeploysCompiled(t, m);
    DeploymentServed(s);
  }

  // Post, read, begin, edit, finish, deploy.
  function EditedWhileEvaluated(): seq<Event> {
    [Whole(PostDefinition("w", SmallPost(false), TYPES)), Read(0, "w"), Begin(0),
     Whole(PostDefinition("w", SmallPost(true), TYPES)), Finish(0, ASSIGNED), Whole(PostDeployment("w", "d", false))]
  }

  lemma RunSix(s: SplitState, es: seq<Event>)
    requires |es| == 6
    ensures Run(s, es) == Next(Next(Next(Next(Next(Next(s, es[0]), es[1]), es[2]), es[3]), es[4]), es[5])
  {
    hide Next;
    assert es[1..][1..] == es[2..] && es[2..][1..] == es[3..] && es[3..][1..] == es[4..] && es[4..][1..] == es[5..];
    assert es[5..][1..] == [];
    var s1 := Next(s, es[0]);
    var s2 := Next(s1, es[1]);
    var s3 := Next(s2, es[2]);
    var s4 := Next(s3, es[3]);
    var s5 := Next(s4, es[4]);
    assert Run(s5, es[5..]) == Next(s5, es[5]);
    assert Run(s4, es[4..]) == Run(s5, es[5..]);
    assert Run(s3, es[3..]) == Run(s4, es[4..]);
    assert Run(s2, es[2..]) == Run(s3, es[3..]);
    assert Run(s1, es[1..]) == Run(s2, es[2..]);
  }

  // From the empty tables: a definition edited while it is evaluated is deployed in a
  // configuration that no evaluation would have certified.
  lemma UnevaluatedDeployment()
    ensures var t := Run(START, EditedWhileEvaluated()).plane.tables;
            && "d" in t.revisions && "w" in t.definitions
            && CompiledFrom(t.revisions["d"].manifest, t.definitions["w"].config)
            && forall a :: !Certifies(t.definitions["w"].config, a)
  {
    hide Next, HasSmall, CompiledFrom, Certifies, PostedConfig, SmallPost, SmallNodes, TYPES;
    var es := EditedWhileEvaluated();
    var read := PostedConfig(SmallPost(false), Graph(SmallNodes(false), []));
    RunSix(START, es);
    SmallGraph(false);
    OneIsCertified(read);
    FirstPost(false);
    var s1 := Next(START, es[0]);
    ReadSmall(s1);
    var s2 := Next(s1, es[1]);
    BeginSmall(s2, read);
    var s3 := Next(s2, es[2]);
    SecondPost(s3, true);
    var s4 := Next(s3, es[3]);
    FinishSmall(s4, read);
    var s5 := Next(s4, es[4]);
    DeploySmall(s5);
    var t := Next(s5, es[5]).plane.tables;
    forall a
      ensures !Certifies(t.definitions["w"].config, a)
    {
      TwoIsNotCertified(t.definitions["w"].config, a);
    }
  }

  // --- The same with a deployment that is not atomic ------------------------------------------

  // Post, read to deploy, edit, evaluate, read the certification, insert.
  function EditedWhileDeployed(): seq<DeployEvent> {
    [Ordinary(Whole(PostDefinition("w", SmallPost(true), TYPES))), ReadDefinition(0, "w"),
     Ordinary(Whole(PostDefinition("w", SmallPost(false), TYPES))), Ordinary(Whole(PostEvaluation("w", ASSIGNED))),
     ReadCertificate(0), Insert(0, "d", false)]
  }

  lemma SixEvents()
    ensures var es := EditedWhileDeployed();
            && |es| == 6 && es[3] == Ordinary(Whole(PostEvaluation("w", ASSIGNED)))
            && es[4] == ReadCertificate(0) && es[5] == Insert(0, "d", false)
  {
  }

  // The definition that the deployment read: the configuration with two nodes.
  predicate ReadTwo(s: DeployState) {
    && 0 in s.deploying && s.deploying[0].id == "w"
    && s.deploying[0].row.config == PostedConfig(SmallPost(true), Graph(SmallNodes(true), []))
  }

  lemma ReadsTwo(s: DeployState)
    requires HasSmall(s.split.plane.tables, true) && s.deploying == map[]
    ensures var s' := DeployNext(s, ReadDefinition(0, "w"));
            && HasSmall(s'.split.plane.tables, true) && ReadTwo(s') && s'.deploying[0].seen.None?
            && s'.split.plane.certified == s.split.plane.certified
  {
    hide PostedConfig, SmallPost, SmallNodes;
  }

  lemma EvaluateSmall(s: SplitState, one: Config)
    requires HasSmall(s.plane.tables, false) && s.plane.certified == {}
    requires s.plane.tables.definitions["w"].config == one && Certifies(one, ASSIGNED)
    ensures var s' := Next(s, Whole(PostEvaluation("w", ASSIGNED)));
            && HasSmall(s'.plane.tables, false) && s'.plane.certified == {one}
            && "w" in s'.plane.tables.certs && s'.plane.tables.certs["w"].status == CertCertified
  {
    hide PostedConfig, SmallPost, SmallNodes, Certifies;
  }

  lemma TwoCompiles(row: DefinitionRow) returns (m: Manifest)
    requires row.config == PostedConfig(SmallPost(true), Graph(SmallNodes(true), []))
    ensures Compile(true, row.config.graph, row.metadata, false) == Ok(m) && CompiledFrom(m, row.config)
  {
    hide PostedConfig, SmallPost, SmallNodes, Compile, Laws.NormalGraph, VOCABULARY, TYPES;
    SmallGraph(true);
    AgentsAreWords();
    SmallNormal(true, TYPES);
    m := PlainCompiles(row.config.graph, Registry(VOCABULARY, TYPES), row.metadata);
  }

  lemma InsertTwo(s: DeployState)
    requires ReadTwo(s) && s.deploying[0].seen.Some? && s.deploying[0].seen.value.status == CertCertified
    requires s.split.plane.tables.revisions == map[]
    ensures var s' := DeployNext(s, Insert(0, "d", false));
            && s'.split.plane.certified == s.split.plane.certified
            && "d" in s'.split.plane.tables.revisions
            && CompiledFrom(s'.split.plane.tables.revisions["d"].manifest, s.deploying[0].row.config)
  {
    hide PostedConfig, SmallPost, SmallNodes, Compile, CompiledFrom, Next;
    var m := TwoCompiles(s.deploying[0].row);
    assert Compiled(s, 0, false) == Ok(m);
  }

  lemma OrdinaryStep(s: DeployState, e: Event)
    ensures DeployNext(s, Ordinary(e)) == s.(split := Next(s.split, e))
  {
    hide Next;
  }

  lemma ReadsCertified(s: DeployState)
    requires HasSmall(s.split.plane.tables, false) && ReadTwo(s) && s.deploying[0].seen.None?
    requires "w" in s.split.plane.tables.certs && s.split.plane.tables.certs["w"].status == CertCertified
    ensures var s' := DeployNext(s, ReadCertificate(0));
            && ReadTwo(s') && s'.deploying[0].seen.Some? && s'.deploying[0].seen.value.status == CertCertified
            && s'.split == s.split && s.split.plane.tables.revisions == map[]
  {
    hide Next, PostedConfig, SmallPost, SmallNodes;
  }

  // A manifest of two nodes does not come from the certified configuration of one.
  lemma TwoIsNotOne(s: State, r: string, one: Config, two: Config)
    requires r in s.tables.revisions && s.certified == {one} && CompiledFrom(s.tables.revisions[r].manifest, two)
    requires one.graph == Graph(SmallNodes(false), []) && two.graph == Graph(SmallNodes(true), [])
    ensures !Good(s)
  {
    hide Lineage, CertsFresh, OneActive, ActiveProved, ScenariosTrue, ConfigsNormal, Compile, LeadAt, TaskAt;
    var m := s.tables.revisions[r].manifest;
    Deployed.CompiledFields(two.graph, m, m.metadata);
    if Provenance(s, m) {
      Deployed.CompiledFields(one.graph, m, m.metadata);
    }
  }

  lemma {:induction false} DeployChain(s: DeployState, es: seq<DeployEvent>, ss: seq<DeployState>)
    requires |ss| == |es| + 1 && ss[0] == s && forall i :: 0 <= i < |es| ==> ss[i + 1] == DeployNext(ss[i], es[i])
    ensures DeployRun(s, es) == ss[|es|]
    decreases |es|
  {
    hide DeployNext;
    if |es| > 0 {
      DeployChain(ss[1], es[1..], ss[1..]);
    }
  }

  // The definition is posted with two nodes, read to be deployed, and edited to one.
  lemma EditedMeanwhile() returns (s1: DeployState, s2: DeployState, s3: DeployState)
    ensures var es := EditedWhileDeployed();
            s1 == DeployNext(DEPLOY_START, es[0]) && s2 == DeployNext(s1, es[1]) && s3 == DeployNext(s2, es[2])
    ensures HasSmall(s3.split.plane.tables, false) && s3.split.plane.certified == {}
    ensures ReadTwo(s3) && s3.deploying[0].seen.None?
  {
    hide Next, DeployNext, PostedConfig, SmallPost, SmallNodes, TYPES, HasSmall;
    var es := EditedWhileDeployed();
    FirstPost(true);
    OrdinaryStep(DEPLOY_START, es[0].event);
    s1 := DeployNext(DEPLOY_START, es[0]);
    ReadsTwo(s1);
    s2 := DeployNext(s1, es[1]);
    SecondPost(s2.split, false);
    OrdinaryStep(s2, es[2].event);
    s3 := DeployNext(s2, es[2]);
  }

  lemma SmallConfig(t: Tables, two: bool)
    requires HasSmall(t, two)
    ensures t.definitions["w"].config == PostedConfig(SmallPost(two), Graph(SmallNodes(two), []))
  {
    hide PostedConfig, SmallPost, SmallNodes;
  }

  lemma SameDeploying(s: DeployState, split: SplitState)
    requires ReadTwo(s) && s.deploying[0].seen.None?
    ensures ReadTwo(s.(split := split)) && s.(split := split).deploying[0].seen.None?
  {
    hide PostedConfig, SmallPost, SmallNodes;
  }

  // Then it is certified.
  lemma CertifiedMeanwhile(s3: DeployState) returns (s4: DeployState)
    requires HasSmall(s3.split.plane.tables, false) && s3.split.plane.certified == {}
    requires ReadTwo(s3) && s3.deploying[0].seen.None?
    ensures s4 == DeployNext(s3, Ordinary(Whole(PostEvaluation("w", ASSIGNED))))
    ensures HasSmall(s4.split.plane.tables, false) && ReadTwo(s4) && s4.deploying[0].seen.None?
    ensures s4.split.plane.certified == {PostedConfig(SmallPost(false), Graph(SmallNodes(false), []))}
    ensures "w" in s4.split.plane.tables.certs && s4.split.plane.tables.certs["w"].status == CertCertified
  {
    hide Next, DeployNext, PostedConfig, SmallPost, SmallNodes, TYPES, HasSmall, Certifies, ReadTwo;
    var one := PostedConfig(SmallPost(false), Graph(SmallNodes(false), []));
    SmallConfig(s3.split.plane.tables, false);
    SmallGraph(false);
    OneIsCertified(one);
    EvaluateSmall(s3.split, one);
    OrdinaryStep(s3, Whole(PostEvaluation("w", ASSIGNED)));
    s4 := DeployNext(s3, Ordinary(Whole(PostEvaluation("w", ASSIGNED))));
    SameDeploying(s3, s4.split);
  }

  // And the deployment goes on.
  lemma DeploysTwo(s4: DeployState) returns (s5: DeployState, s6: DeployState)
    requires HasSmall(s4.split.plane.tables, false) && ReadTwo(s4) && s4.deploying[0].seen.None?
    requires "w" in s4.split.plane.tables.certs && s4.split.plane.tables.certs["w"].status == CertCertified
    ensures s5 == DeployNext(s4, ReadCertificate(0)) && s6 == DeployNext(s5, Insert(0, "d", false))
    ensures s6.split.plane.certified == s4.split.plane.certified
    ensures "d" in s6.split.plane.tables.revisions
    ensures CompiledFrom(s6.split.plane.tables.revisions["d"].manifest, PostedConfig(SmallPost(true), Graph(SmallNodes(true), [])))
  {
    hide Next, DeployNext, PostedConfig, SmallPost, SmallNodes, HasSmall, CompiledFrom;
    ReadsCertified(s4);
    s5 := DeployNext(s4, ReadCertificate(0));
    InsertTwo(s5);
    s6 := DeployNext(s5, Insert(0, "d", false));
  }

  // From the empty tables: a definition edited and certified while its old configuration is
  // deployed. That configuration is one no evaluation certifies, and the laws are broken.
  lemma OldConfigurationDeployed()
    ensures var config, s := PostedConfig(SmallPost(true), Graph(SmallNodes(true), [])), DeployRun(DEPLOY_START, EditedWhileDeployed()).split.plane;
            && "d" in s.tables.revisions && CompiledFrom(s.tables.revisions["d"].manifest, config)
            && (forall a :: !Certifies(config, a))
            && !Good(s)
  {
    hide DeployNext, DeployRun, CompiledFrom, Certifies, PostedConfig, SmallPost, SmallNodes, Good, HasSmall,
         EditedWhileDeployed;
    var one, two := PostedConfig(SmallPost(false), Graph(SmallNodes(false), [])), PostedConfig(SmallPost(true), Graph(SmallNodes(true), []));
    SmallGraph(false);
    SmallGraph(true);
    var s1, s2, s3 := EditedMeanwhile();
    var s4 := CertifiedMeanwhile(s3);
    var s5, s6 := DeploysTwo(s4);
    SixEvents();
    DeployChain(DEPLOY_START, EditedWhileDeployed(), [DEPLOY_START, s1, s2, s3, s4, s5, s6]);
    TwoIsNotOne(s6.split.plane, "d", one, two);
    forall a
      ensures !Certifies(two, a)
    {
      TwoIsNotCertified(two, a);
    }
  }
}
