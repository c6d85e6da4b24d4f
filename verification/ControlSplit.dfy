// Evaluations that are not atomic: the endpoint reads the definition, marks the record as
// evaluating and, once the evaluators are done, writes its result over whatever happened in
// between (intelliguard/api/main.py:983-1058).
module ControlSplit {
  import opened Outcomes
  import opened Json
  import opened WorkflowGraph
  import opened WorkflowEvaluators
  import opened ManifestCompiler
  import opened ControlTables
  import opened ControlPlane
  import opened ControlTheorems

  // An evaluation in flight: what it read, and whether it has marked the record.
  datatype Evaluation = Evaluation(id: string, read: Config, begun: bool)

  datatype Event =
    | Whole(request: Request)
    | Read(evaluation: nat, id: string)
    | Begin(evaluation: nat)
    | Finish(evaluation: nat, assignments: Assignments)

  datatype SplitState = SplitState(plane: State, pending: map<nat, Evaluation>)

  const START := SplitState(INITIAL, map[])

  ghost function ReadNext(s: SplitState, e: nat, id: string): SplitState {
    var t := s.plane.tables;
    if id == "" || id !in t.definitions || e in s.pending then s
    else SplitState(s.plane.(tables := EnsureLineage(t, id)), s.pending[e := Evaluation(id, t.definitions[id].config, false)])
  }

  ghost function BeginNext(s: SplitState, e: nat): SplitState {
    if e !in s.pending || s.pending[e].begun then s
    else
      var Evaluation(id, read, _) := s.pending[e];
      SplitState(s.plane.(tables := SetCert(s.plane.tables, id, CertEvaluating, Digest(read))), s.pending[e := Evaluation(id, read, true)])
  }

  predicate Ready(s: SplitState, e: nat) {
    e in s.pending && s.pending[e].begun
  }

  ghost function FinishNext(s: SplitState, e: nat, a: Assignments): SplitState {
    if !Ready(s, e) then s
    else
      var Evaluation(id, read, _) := s.pending[e];
      SplitState(State(EndEvaluation(s.plane.tables, id, read, Certifies(read, a)),
                       if Certifies(read, a) then s.plane.certified + {read} else s.plane.certified),
                 s.pending - {e})
  }

  ghost function Next(s: SplitState, ev: Event): SplitState {
    match ev
    case Whole(r) => s.(plane := Serve(s.plane, r))
    case Read(e, id) => ReadNext(s, e, id)
    case Begin(e) => BeginNext(s, e)
    case Finish(e, a) => FinishNext(s, e, a)
  }

  ghost function Run(s: SplitState, es: seq<Event>): SplitState
    decreases |es|
  {
    if |es| == 0 then s else Run(Next(s, es[0]), es[1..])
  }

  // --- What the posts leave ---------------------------------------------------------------

  // The configuration that an accepted post on the definition leaves.
  ghost function PostedBy(s: SplitState, ev: Event, id: string): Option<Config> {
    match ev
    case Whole(PostDefinition(q, x, registered)) =>
      if q == id && PostedGraph(x, registered).Some? && Upsert(s.plane.tables, id, x, registered).Some?
      then Some(PostedConfig(x, PostedGraph(x, registered).value)) else None
    case _ => None
  }

  // That of the last accepted post on the definition among the events.
  ghost function LastPosted(s: SplitState, es: seq<Event>, id: string): Option<Config>
    decreases |es|
  {
    if |es| == 0 then None
    else
      var later := LastPosted(Next(s, es[0]), es[1..], id);
      if later.Some? then later else PostedBy(s, es[0], id)
  }

  ghost predicate SameConfig(t: Tables, t': Tables, id: string)
    requires id in t.definitions
  {
    id in t'.definitions && t'.definitions[id].config == t.definitions[id].config
  }

  lemma EnsureKeepsConfig(t: Tables, q: string, id: string)
    requires q in t.definitions && id in t.definitions
    ensures SameConfig(t, EnsureLineage(t, q), id)
  {
  }

  lemma UpsertConfig(t: Tables, q: string, x: Posted, registered: map<string, string>, id: string)
    requires id in t.definitions && Upsert(t, q, x, registered).Some?
    ensures PostedGraph(x, registered).Some?
    ensures var t' := Upsert(t, q, x, registered).value;
            && id in t'.definitions
            && t'.definitions[id].config ==
               if q == id then PostedConfig(x, PostedGraph(x, registered).value) else t.definitions[id].config
  {
    hide PostedGraph, PostedConfig, PostedMetadata, PostedHash, EnsureLineage, Sync;
    if q in t.definitions {
      EnsureKeepsConfig(t, q, id);
    }
    var g := PostedGraph(x, registered).value;
    if q !in t.definitions {
      SyncOnly(t.(definitions := t.definitions[q := NewDefinition(q, x, g)]), q);
    } else {
      var ensured := EnsureLineage(t, q);
      SyncOnly(Invalidate(ensured.(definitions := ensured.definitions[q := Edited(ensured.definitions[q], x, g)]), q), q);
    }
  }

  lemma VersionKeepsConfig(t: Tables, source: string, q: string, tag: string, id: string)
    requires id in t.definitions && NewVersion(t, source, q, tag).Some?
    ensures SameConfig(t, NewVersion(t, source, q, tag).value, id)
  {
    hide EnsureLineage, MaxNumber;
    EnsureKeepsConfig(t, source, id);
  }

  lemma TransitionKeepsConfig(t: Tables, q: string, target: Lifecycle, id: string)
    requires id in t.definitions && Transition(t, q, target).Some?
    ensures SameConfig(t, Transition(t, q, target).value, id)
  {
    hide EnsureLineage, MayBecome;
    EnsureKeepsConfig(t, q, id);
    EnsureKeepsConfig(t, q, q);
  }

  lemma DeployKeepsConfig(t: Tables, q: string, deployment: string, secret: bool, id: string)
    requires id in t.definitions && Deploy(t, q, deployment, secret).Some?
    ensures SameConfig(t, Deploy(t, q, deployment, secret).value, id)
  {
    hide EnsureLineage, Compile;
    EnsureKeepsConfig(t, q, id);
  }

  lemma RequestConfig(s: SplitState, r: Request, id: string)
    requires id in s.plane.tables.definitions && !r.PostDefinition?
    ensures SameConfig(s.plane.tables, Serve(s.plane, r).tables, id)
  {
    hide Upsert, NewVersion, Transition, Deploy, EnsureLineage, Certifies, HasPassingRun, SuiteVerdict;
    var t := s.plane.tables;
    match r
    case GetDefinition(q) => if q in t.definitions { EnsureKeepsConfig(t, q, id); }
    case PostVersion(source, q, tag) => if NewVersion(t, source, q, tag).Some? { VersionKeepsConfig(t, source, q, tag, id); }
    case PostLifecycle(q, target) => if Transition(t, q, target).Some? { TransitionKeepsConfig(t, q, target, id); }
    case PostEvaluation(q, a) => if q in t.definitions { EnsureKeepsConfig(t, q, id); }
    case PostDeployment(q, d, secret) => if Deploy(t, q, d, secret).Some? { DeployKeepsConfig(t, q, d, secret, id); }
    case PostScenarioRun(d, results) =>
    case PostActivation(d) =>
  }

  lemma EventConfig(s: SplitState, ev: Event, id: string)
    requires id in s.plane.tables.definitions
    ensures var t' := Next(s, ev).plane.tables;
            && id in t'.definitions
            && t'.definitions[id].config ==
               match PostedBy(s, ev, id) case Some(c) => c case None => s.plane.tables.definitions[id].config
  {
    hide Upsert, PostedGraph, PostedConfig, EnsureLineage, Certifies;
    var t := s.plane.tables;
    match ev
    case Whole(r) =>
      if r.PostDefinition? {
        if Upsert(t, r.id, r.posted, r.registered).Some? { UpsertConfig(t, r.id, r.posted, r.registered, id); }
      } else {
        RequestConfig(s, r, id);
      }
    case Read(_, q) => if q in t.definitions { EnsureKeepsConfig(t, q, id); }
    case Begin(_) =>
    case Finish(_, _) =>
  }

  // The configuration of a definition is that of the last accepted post on it.
  lemma {:induction false} ConfigIsLastPosted(s: SplitState, es: seq<Event>, id: string)
    requires id in s.plane.tables.definitions
    ensures var t' := Run(s, es).plane.tables;
            && id in t'.definitions
            && t'.definitions[id].config ==
               match LastPosted(s, es, id) case Some(c) => c case None => s.plane.tables.definitions[id].config
    decreases |es|
  {
    hide Next, PostedBy;
    if |es| > 0 {
      EventConfig(s, es[0], id);
      ConfigIsLastPosted(Next(s, es[0]), es[1..], id);
    }
  }

  // --- Which certificates are fresh ------------------------------------------------------------

  predicate Finishes(ev: Event, e: nat) {
    ev.Finish? && ev.evaluation == e
  }

  lemma StillPending(s: SplitState, ev: Event, e: nat)
    requires e in s.pending && !Finishes(ev, e)
    ensures var s' := Next(s, ev);
            && e in s'.pending && s'.pending[e].(begun := true) == s.pending[e].(begun := true)
            && (s.pending[e].begun || ev == Begin(e) ==> s'.pending[e].begun)
  {
    hide Serve, EnsureLineage, Certifies;
  }

  // The evaluation stays in flight until it finishes.
  lemma {:induction false} StaysPending(s: SplitState, es: seq<Event>, e: nat)
    requires e in s.pending && forall ev :: ev in es ==> !Finishes(ev, e)
    ensures var s' := Run(s, es);
            && e in s'.pending && s'.pending[e].(begun := true) == s.pending[e].(begun := true)
            && (s.pending[e].begun || Begin(e) in es ==> s'.pending[e].begun)
    decreases |es|
  {
    if |es| > 0 {
      assert es[0] in es;
      StillPending(s, es[0], e);
      StaysPending(Next(s, es[0]), es[1..], e);
      assert es == [es[0]] + es[1..];
    }
  }

  // In whatever state an evaluation reads its definition, and whatever events come before it
  // writes its result: the record it certifies is of the configuration the definition has
  // exactly if no post on it was accepted in between, or the last one left it as it was read.
  lemma SplitEvaluationFreshIff(s: SplitState, e: nat, id: string, es: seq<Event>, a: Assignments)
    requires id != "" && id in s.plane.tables.definitions && e !in s.pending
    requires Begin(e) in es && forall ev :: ev in es ==> !Finishes(ev, e)
    ensures var read, reading := s.plane.tables.definitions[id].config, Next(s, Read(e, id));
            var t' := Next(Run(reading, es), Finish(e, a)).plane.tables;
            && id in t'.certs && id in t'.definitions
            && t'.certs[id].status == (if Certifies(read, a) then CertCertified else CertFailed)
            && (t'.certs[id].hash == Digest(t'.definitions[id].config) <==> LastPosted(reading, es, id) in {None, Some(read)})
  {
    hide Run, LastPosted, Certifies, EnsureLineage, Serve;
    var reading := Next(s, Read(e, id));
    EnsureKeepsConfig(s.plane.tables, id, id);
    StaysPending(reading, es, e);
    ConfigIsLastPosted(reading, es, id);
  }

  lemma RunThreeEvents(s: SplitState, a: Event, b: Event, c: Event)
    ensures Run(s, [a, b, c]) == Next(Next(Next(s, a), b), c)
  {
    hide Next;
    var es := [a, b, c];
    assert es[1..] == [b, c] && es[1..][1..] == [c] && es[1..][1..][1..] == [];
    var s2 := Next(Next(s, a), b);
    assert Run(s2, es[1..][1..]) == Next(s2, c);
  }

  lemma ServeEvaluation(s: State, id: string, a: Assignments)
    requires id != "" && id in s.tables.definitions
    ensures var config := s.tables.definitions[id].config;
            Serve(s, PostEvaluation(id, a)) ==
            State(EndEvaluation(BeginEvaluation(s.tables, id).value, id, config, Certifies(config, a)),
                  if Certifies(config, a) then s.certified + {config} else s.certified)
  {
    hide EnsureLineage, EndEvaluation, Certifies, Upsert, NewVersion, Transition, Deploy, RunScenarios, Activate;
  }

  // An evaluation without anything in between is the atomic one.
  lemma UndisturbedIsAtomic(s: SplitState, e: nat, id: string, a: Assignments)
    requires id != "" && id in s.plane.tables.definitions && e !in s.pending
    ensures Run(s, [Read(e, id), Begin(e), Finish(e, a)]) == s.(plane := Serve(s.plane, PostEvaluation(id, a)))
  {
    hide EnsureLineage, Certifies, Serve, Run;
    RunThreeEvents(s, Read(e, id), Begin(e), Finish(e, a));
    ServeEvaluation(s.plane, id, a);
    var s3 := Next(Next(Next(s, Read(e, id)), Begin(e)), Finish(e, a));
    assert s3.pending == s.pending;
    EnsureKeepsConfig(s.plane.tables, id, id);
    assert s3.plane.tables.certs == Serve(s.plane, PostEvaluation(id, a)).tables.certs;
  }

  // --- Guarded evaluations keep all the laws ------------------------------------------------------

  // Before its last write the endpoint finds that a definition it is about to certify has
  // the configuration it read.
  ghost predicate Guarded(s: SplitState, ev: Event) {
    ev.Finish? && Ready(s, ev.evaluation) && Certifies(s.pending[ev.evaluation].read, ev.assignments) ==>
      var Evaluation(id, read, _) := s.pending[ev.evaluation];
      id in s.plane.tables.definitions && s.plane.tables.definitions[id].config == read
  }

  ghost predicate AllGuarded(s: SplitState, es: seq<Event>)
    decreases |es|
  {
    |es| == 0 || (Guarded(s, es[0]) && AllGuarded(Next(s, es[0]), es[1..]))
  }

  ghost predicate PendingKnown(s: SplitState) {
    forall e :: e in s.pending ==> s.pending[e].id != "" && s.pending[e].id in s.plane.tables.definitions
  }

  lemma PendingFrom(s: SplitState, ev: Event, e: nat)
    requires PendingKnown(s) && e in Next(s, ev).pending
    ensures Next(s, ev).pending[e].id != "" && Next(s, ev).pending[e].id in s.plane.tables.definitions
  {
    hide Serve, EnsureLineage, Certifies;
  }

  lemma EventKeepsPending(s: SplitState, ev: Event)
    requires PendingKnown(s)
    ensures PendingKnown(Next(s, ev))
  {
    hide Next, PostedBy;
    forall e | e in Next(s, ev).pending
      ensures Next(s, ev).pending[e].id != "" && Next(s, ev).pending[e].id in Next(s, ev).plane.tables.definitions
    {
      PendingFrom(s, ev, e);
      EventConfig(s, ev, Next(s, ev).pending[e].id);
    }
  }

  // A certification record is written; only a fresh one may be certified.
  lemma CertWriteGood(s: State, id: string, status: CertStatus, hash: Digest, certified: set<Config>)
    requires Good(s) && id in s.tables.definitions && s.certified <= certified
    requires forall c :: c in certified && c !in s.certified ==> c == s.tables.definitions[id].config && exists a :: Certifies(c, a)
    requires status == CertCertified ==> hash == Digest(s.tables.definitions[id].config) && s.tables.definitions[id].config in certified
    ensures Good(State(SetCert(s.tables, id, status, hash), certified))
  {
    hide Lineage, NormalOnce, Provenance, Certifies, HasPassingRun;
    var s' := State(SetCert(s.tables, id, status, hash), certified);
    SameRowsSameLineage(s.tables, s'.tables);
    forall q | q in s'.tables.certs
      ensures CertFresh(s', q)
    {
      if q != id {
        assert CertFresh(s, q);
      }
    }
    forall r | r in s'.tables.revisions
      ensures Provenance(s', s'.tables.revisions[r].manifest)
    {
      ProvenanceStays(s, s', s.tables.revisions[r].manifest);
    }
    forall r
      ensures HasPassingRun(s'.tables, r) <==> HasPassingRun(s.tables, r)
    {
      SameScenarios(s.tables, s'.tables, r);
    }
    assert ActiveProved(s'.tables) && OneActive(s'.tables);
  }

  lemma EventGood(s: SplitState, ev: Event)
    requires Good(s.plane) && PendingKnown(s) && Guarded(s, ev)
    ensures Good(Next(s, ev).plane)
  {
    hide Good, Serve, EnsureLineage, Certifies;
    match ev
    case Whole(r) => ServeGood(s.plane, r);
    case Read(e, id) => if id in s.plane.tables.definitions { ReadGood(s.plane, id); }
    case Begin(e) =>
      if e in s.pending && !s.pending[e].begun {
        CertWriteGood(s.plane, s.pending[e].id, CertEvaluating, Digest(s.pending[e].read), s.plane.certified);
      }
    case Finish(e, a) =>
      if Ready(s, e) {
        var Evaluation(id, read, _) := s.pending[e];
        CertWriteGood(s.plane, id, if Certifies(read, a) then CertCertified else CertFailed, Digest(read),
                      if Certifies(read, a) then s.plane.certified + {read} else s.plane.certified);
      }
  }

  // Over every interleaving of requests and evaluations in which an evaluation certifies
  // only what it read, every law of the control plane holds.
  lemma {:induction false} GuardedRunsGood(s: SplitState, es: seq<Event>)
    requires Good(s.plane) && PendingKnown(s) && AllGuarded(s, es)
    ensures Good(Run(s, es).plane) && PendingKnown(Run(s, es))
    decreases |es|
  {
    hide Good, PendingKnown, Next, Guarded;
    if |es| > 0 {
      EventGood(s, es[0]);
      EventKeepsPending(s, es[0]);
      GuardedRunsGood(Next(s, es[0]), es[1..]);
    }
  }

  lemma StartGood()
    ensures Good(START.plane) && PendingKnown(START)
  {
    ServeAllGood([]);
  }

  // So it is from the empty tables on.
  lemma StartedRunsGood(es: seq<Event>)
    requires AllGuarded(START, es)
    ensures Good(Run(START, es).plane)
  {
    hide Good, PendingKnown, Run, AllGuarded;
    StartGood();
    GuardedRunsGood(START, es);
  }

  // And nothing less will do: an event keeps the laws exactly if it is guarded.
  lemma GuardIsExact(s: SplitState, ev: Event)
    requires Good(s.plane) && PendingKnown(s)
    ensures Good(Next(s, ev).plane) <==> Guarded(s, ev)
  {
    hide Serve, Lineage, RevisionsTraced, OneActive, ActiveProved, ScenariosTrue, ConfigsNormal, Certifies,
         EnsureLineage;
    if Guarded(s, ev) {
      EventGood(s, ev);
    } else {
      var Evaluation(id, read, _) := s.pending[ev.evaluation];
      assert !CertFresh(Next(s, ev).plane, id);
    }
  }
}
