// The control-plane tables as the object the code updates in place, and the loops over
// them (persistence/store.py:580-863).
module ControlStore {
  import opened Outcomes
  import opened Json
  import opened WorkflowGraph
  import opened WorkflowEvaluators
  import opened ManifestCompiler
  import opened ControlTables
  import opened ScenarioSuites

  // The checks of an upsert that come before its writes.
  method NormalizePosted(x: Posted, registered: map<string, string>) returns (graph: Option<Graph>)
    ensures graph == PostedGraph(x, registered)
  {
    if !(AgentsNamed(x.payload) <= registered.Keys) {
      return None;
    }
    var normalized := NormalizeWorkflowGraph(x.payload, Registry(VOCABULARY, TypesNamed(x.payload, registered)));
    if normalized.Err? || (Truthy(x.payload.metadata) && !x.payload.metadata.Object?) {
      return None;
    }
    graph := Some(normalized.value);
  }

  class DefinitionStore {
    var definitions: map<string, DefinitionRow>
    var versions: map<string, VersionRow>
    var certs: map<string, CertRow>
    var revisions: map<string, RevisionRow>
    var scenarios: seq<ScenarioRow>

    function State(): Tables
      reads this
    {
      Tables(definitions, versions, certs, revisions, scenarios)
    }

    constructor ()
      ensures State() == EMPTY
    {
      definitions, versions, certs, revisions, scenarios := map[], map[], map[], map[], [];
    }

    method SyncVersion(id: string)
      requires id in definitions
      modifies this`versions
      ensures State() == Sync(old(State()), id)
    {
      var d := definitions[id];
      var root := if d.root == "" then id else d.root;
      if id !in versions {
        versions := versions[id := VersionRow(root, if d.tag == "" then "v1" else d.tag, d.number, d.previous, d.status)];
      } else {
        var row := versions[id].(root := root, previous := d.previous);
        if d.tag != "" {
          row := row.(tag := d.tag);
        }
        versions := versions[id := row.(number := d.number, status := d.status)];
      }
    }

    method EnsureWorkflowLineage(id: string)
      requires id in definitions
      modifies this`definitions, this`versions
      ensures State() == EnsureLineage(old(State()), id)
    {
      var d := definitions[id];
      if d.root == "" {
        d := d.(root := id);
      }
      if d.tag == "" {
        d := d.(tag := "v1");
      }
      if d.number == 0 {
        d := d.(number := 1);
      }
      definitions := definitions[id := d];
      SyncVersion(id);
    }

    method InvalidateCertification(id: string)
      modifies this`certs
      ensures State() == Invalidate(old(State()), id)
    {
      if id in certs && certs[id].status !in {CertDraft, CertStale} {
        certs := certs[id := certs[id].(status := CertStale)];
      }
    }

    // Ensuring the lineage changes neither the lock nor the status.
    predicate Locked(id: string)
      requires id in definitions
      reads this
    {
      definitions[id].locked || LockedStatus(definitions[id].status)
    }

    // A request that fails is rolled back, so nothing is written before the last check.
    method UpsertWorkflowDefinition(id: string, x: Posted, registered: map<string, string>) returns (ok: bool)
      modifies this
      ensures ok <==> Upsert(old(State()), id, x, registered).Some?
      ensures State() == if ok then Upsert(old(State()), id, x, registered).value else old(State())
    {
      hide Sync, PostedGraph, PostedConfig, PostedMetadata, PostedHash, EnsureLineage, Invalidate;
      var graph := NormalizePosted(x, registered);
      if graph.None? {
        return false;
      }
      if id !in definitions {
        definitions := definitions[id := NewDefinition(id, x, graph.value)];
      } else {
        if Locked(id) {
          return false;
        }
        EnsureWorkflowLineage(id);
        definitions := definitions[id := Edited(definitions[id], x, graph.value)];
        InvalidateCertification(id);
      }
      SyncVersion(id);
      ok := true;
    }

    lemma MaxIs(max: nat, root: string)
      requires forall id :: id in definitions && definitions[id].root == root ==> definitions[id].number <= max
      requires max == 0 || exists id :: id in definitions && definitions[id].root == root && definitions[id].number == max
      ensures max == MaxNumber(State(), root)
    {
      var numbers := NumbersUnder(State(), root);
      if max > 0 {
        assert max in numbers;
      }
      if numbers != {} {
        assert Largest(numbers) in numbers;
      }
    }

    // func.max over the definitions of a root.
    method MaxVersionNumber(root: string) returns (max: nat)
      ensures max == MaxNumber(State(), root)
    {
      max := 0;
      ghost var seen: set<string> := {};
      var rest := definitions.Keys;
      while rest != {}
        invariant seen !! rest && seen + rest == definitions.Keys
        invariant forall id :: id in seen && definitions[id].root == root ==> definitions[id].number <= max
        invariant max == 0 || exists id :: id in seen && definitions[id].root == root && definitions[id].number == max
        decreases |rest|
      {
        var id :| id in rest;
        if definitions[id].root == root && definitions[id].number > max {
          max := definitions[id].number;
        }
        rest := rest - {id};
        seen := seen + {id};
      }
      MaxIs(max, root);
    }

    method CreateWorkflowDefinitionVersion(source: string, id: string, tag: string) returns (ok: bool)
      modifies this
      ensures ok <==> NewVersion(old(State()), source, id, tag).Some?
      ensures State() == if ok then NewVersion(old(State()), source, id, tag).value else old(State())
    {
      hide Sync, MaxNumber;
      if source !in definitions || id in definitions {
        return false;
      }
      EnsureWorkflowLineage(source);
      var d := definitions[source];
      var max := MaxVersionNumber(d.root);
      var metadata := d.metadata[VersionCreatedFrom := String(source)];
      var row := DefinitionRow(d.config, metadata, d.graphHash, RootOf(source, d), tag,
                               (if max == 0 then 1 else max) + 1, Some(source), Draft, false);
      definitions := definitions[id := row];
      SyncVersion(source);
      SyncVersion(id);
      ok := true;
    }

    method TransitionWorkflowLifecycle(id: string, target: Lifecycle) returns (ok: bool)
      modifies this
      ensures ok <==> Transition(old(State()), id, target).Some?
      ensures State() == if ok then Transition(old(State()), id, target).value else old(State())
    {
      hide Sync;
      if id !in definitions || !MayBecome(definitions[id].status, target) {
        return false;
      }
      EnsureWorkflowLineage(id);
      ghost var ensured := definitions;
      definitions := definitions[id := definitions[id].(status := target)];
      if LockedStatus(target) && !definitions[id].locked {
        definitions := definitions[id := definitions[id].(locked := true)];
      }
      assert definitions == ensured[id := ensured[id].(status := target, locked := ensured[id].locked || LockedStatus(target))];
      SyncVersion(id);
      ok := true;
    }

    // The loop over the other active rows of the workflow and environment.
    method RetireActiveRows(deployment: string)
      requires deployment in revisions
      modifies this`revisions
      ensures revisions == RetireOthers(old(revisions), deployment)
    {
      var rest := set r | r in revisions && Rival(revisions, deployment, r);
      while rest != {}
        invariant revisions.Keys == old(revisions).Keys
        invariant forall r :: r in rest ==> r in old(revisions) && Rival(old(revisions), deployment, r)
        invariant forall r :: r in old(revisions) ==>
                    revisions[r] == if Rival(old(revisions), deployment, r) && r !in rest then old(revisions)[r].(status := RevRetired)
                                    else old(revisions)[r]
        decreases |rest|
      {
        var r :| r in rest;
        revisions := revisions[r := revisions[r].(status := RevRetired)];
        rest := rest - {r};
      }
    }

    // activate_workflow_deployment behind the production check of the endpoint.
    method ActivateWorkflowDeployment(deployment: string) returns (ok: bool)
      modifies this
      ensures ok <==> Activate(old(State()), deployment).Some?
      ensures State() == if ok then Activate(old(State()), deployment).value else old(State())
    {
      if deployment !in revisions {
        return false;
      }
      var row := revisions[deployment];
      if row.environment == PRODUCTION && !HasPassingRun(State(), deployment) {
        return false;
      }
      if row.status == RevRetired {
        return false;
      }
      RetireActiveRows(deployment);
      revisions := revisions[deployment := revisions[deployment].(status := RevActive)];
      ok := true;
    }

    // The evaluate endpoint, undisturbed. Its check of the certification status never fails.
    method EvaluateWorkflowDefinition(id: string, a: Assignments) returns (found: bool)
      modifies this
      ensures found <==> id in old(definitions)
      ensures State() == if !found then old(State())
                         else EndEvaluation(BeginEvaluation(old(State()), id).value, id, old(definitions)[id].config,
                                            Certifiable(old(definitions)[id].config.graph, a, VOCABULARY))
    {
      hide Sync, Certifiable, EnsureLineage;
      if id !in definitions {
        return false;
      }
      EnsureWorkflowLineage(id);
      var config := definitions[id].config;
      if id !in certs {
        certs := certs[id := CertRow(CertDraft, Digest(config))];
      }
      assert certs[id].status == CertEvaluating || ValidTransition(certs[id].status, CertEvaluating);
      certs := certs[id := CertRow(CertEvaluating, Digest(config))];
      var decision := Evaluate(config.graph, a, DictOrEmpty(config.rules), VOCABULARY);
      certs := certs[id := CertRow(if decision == CERTIFIED then CertCertified else CertFailed, Digest(config))];
      assert certs == BeginEvaluation(old(State()), id).value.certs[id := certs[id]];
      found := true;
    }

    // The deployment endpoint.
    method CreateWorkflowDeployment(id: string, deployment: string, secret: bool) returns (ok: bool)
      modifies this
      ensures ok <==> Deploy(old(State()), id, deployment, secret).Some?
      ensures State() == if ok then Deploy(old(State()), id, deployment, secret).value else old(State())
    {
      hide Sync, Compile;
      if id !in definitions || id !in certs || deployment in revisions {
        return false;
      }
      var d := definitions[id];
      var compiled := Compile(certs[id].status == CertCertified, d.config.graph, d.metadata, secret);
      if compiled.Err? {
        return false;
      }
      EnsureWorkflowLineage(id);
      d := definitions[id];
      revisions := revisions[deployment := RevisionRow(id, d.config.environment, d.tag, RevPackaged, compiled.value)];
      ok := true;
    }

    // The endpoint that runs a scenario suite on a deployment.
    method RunScenarioSuite(deployment: string, cases: seq<(Expected, Observed)>) returns (ok: bool)
      modifies this
      ensures ok <==> RunScenarios(old(State()), deployment, Held(cases)).Some?
      ensures State() == if ok then RunScenarios(old(State()), deployment, Held(cases)).value else old(State())
    {
      if deployment !in revisions {
        return false;
      }
      var pass, total, passed := RunSuite(cases);
      scenarios := scenarios + [ScenarioRow(deployment, total, passed, pass)];
      ok := true;
    }
  }
}
