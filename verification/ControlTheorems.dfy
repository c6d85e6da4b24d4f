// What holds in every state the control plane reaches: version lineage, locks, fresh
// certifications, provenance of deployments and activation.
module ControlTheorems {
  import opened Outcomes
  import opened Json
  import opened WorkflowGraph
  import opened WorkflowEvaluators
  import opened ManifestCompiler
  import opened ControlTables
  import opened ControlPlane
  import Laws = WorkflowGraphLaws

  // --- Lineage ------------------------------------------------------------------------

  // On stored definitions, ensuring the lineage only gives an empty label its name.
  lemma EnsureNames(t: Tables, id: string)
    requires Lineage(t) && id in t.definitions
    ensures EnsureLineage(t, id) == t.(definitions := t.definitions[id := t.definitions[id].(tag := Reported(t.definitions[id].tag))])
  {
    hide NumbersDiffer;
    assert DefinitionOk(t, id) && VersionAgrees(t, id);
    var t' := EnsureLineage(t, id);
    assert t'.versions == t.versions;
  }

  ghost predicate SameLine(a: DefinitionRow, b: DefinitionRow) {
    a.root == b.root && a.number == b.number && a.previous == b.previous
  }

  lemma SameLineOk(t: Tables, t': Tables, id: string)
    requires id in t.definitions && DefinitionOk(t, id)
    requires t'.definitions.Keys == t.definitions.Keys
    requires forall id :: id in t.definitions ==> SameLine(t.definitions[id], t'.definitions[id])
    requires LockedStatus(t'.definitions[id].status) <==> t'.definitions[id].locked
    ensures DefinitionOk(t', id)
  {
    var d := t.definitions[id];
    if d.number > 1 {
      var p :| Family(t, d.root, p) && t.definitions[p].number == d.number - 1;
      assert Family(t', d.root, p) && t'.definitions[p].number == d.number - 1;
    }
  }

  // Changing anything but lines and locks keeps the definitions in order.
  lemma SameLinesOk(t: Tables, t': Tables)
    requires LinesOk(t) && NumbersDiffer(t) && t'.definitions.Keys == t.definitions.Keys
    requires forall id :: id in t.definitions ==> SameLine(t.definitions[id], t'.definitions[id])
    requires forall id :: id in t.definitions ==> (LockedStatus(t'.definitions[id].status) <==> t'.definitions[id].locked)
    ensures LinesOk(t') && NumbersDiffer(t')
  {
    forall id | id in t'.definitions
      ensures DefinitionOk(t', id)
    {
      assert DefinitionOk(t, id);
      SameLineOk(t, t', id);
    }
  }

  // Synchronising the one definition whose row is behind restores the agreement.
  lemma SyncAgrees(t: Tables, id: string)
    requires id in t.definitions && t.versions.Keys + {id} == t.definitions.Keys
    requires forall q :: q in t.definitions && q != id ==> VersionAgrees(t, q)
    requires t.definitions[id].root == "" ==> id == ""
    requires id in t.versions ==> t.definitions[id].tag != ""
    ensures VersionsAgree(Sync(t, id))
  {
    forall q | q in t.definitions
      ensures VersionAgrees(Sync(t, id), q)
    {
      if q != id {
        assert VersionAgrees(t, q);
      }
    }
  }

  lemma LocksMatch(t: Tables, id: string)
    requires id in t.definitions && DefinitionOk(t, id)
    ensures LockedStatus(t.definitions[id].status) <==> t.definitions[id].locked
    ensures t.definitions[id].root == "" ==> id == ""
  {
  }

  lemma SyncKeepsDefinitions(t: Tables, id: string)
    requires id in t.definitions && VersionsAgree(Sync(t, id)) && NumbersDiffer(t)
    requires LinesOk(t)
    ensures Lineage(Sync(t, id))
  {
    var t' := Sync(t, id);
    forall q | q in t'.definitions
      ensures DefinitionOk(t', q)
    {
      SameLineOk(t, t', q);
    }
  }

  // One definition is replaced by a row of the same line and then synchronised.
  lemma ReplaceKeepsLineage(t: Tables, id: string, row: DefinitionRow)
    requires Lineage(t) && id in t.definitions && SameLine(t.definitions[id], row)
    requires (LockedStatus(row.status) <==> row.locked) && row.tag != ""
    ensures Lineage(Sync(t.(definitions := t.definitions[id := row]), id))
  {
    hide DefinitionOk, Sync, NumbersDiffer;
    var t' := t.(definitions := t.definitions[id := row]);
    forall q | q in t.definitions
      ensures SameLine(t.definitions[q], t'.definitions[q])
      ensures LockedStatus(t'.definitions[q].status) <==> t'.definitions[q].locked
    {
      LocksMatch(t, q);
    }
    SameLinesOk(t, t');
    LocksMatch(t, id);
    SyncAgrees(t', id);
    SyncKeepsDefinitions(t', id);
  }

  lemma SyncAgain(t: Tables, id: string, d: DefinitionRow)
    requires Lineage(t) && id in t.definitions && d == t.definitions[id].(tag := Reported(t.definitions[id].tag))
    ensures Sync(t.(definitions := t.definitions[id := d]), id) == t.(definitions := t.definitions[id := d])
  {
    hide NumbersDiffer;
    assert DefinitionOk(t, id) && VersionAgrees(t, id);
    var t' := t.(definitions := t.definitions[id := d]);
    assert Sync(t', id).versions == t.versions;
  }

  // Ensuring the lineage keeps it, and after it no label is empty.
  lemma EnsureKeepsLineage(t: Tables, id: string)
    requires Lineage(t) && id in t.definitions
    ensures Lineage(EnsureLineage(t, id))
    ensures EnsureLineage(t, id).definitions[id] == t.definitions[id].(tag := Reported(t.definitions[id].tag))
    ensures EnsureLineage(t, id).definitions == t.definitions[id := EnsureLineage(t, id).definitions[id]]
    ensures EnsureLineage(t, id).certs == t.certs && EnsureLineage(t, id).revisions == t.revisions
    ensures EnsureLineage(t, id).scenarios == t.scenarios
  {
    hide Sync, DefinitionOk;
    EnsureNames(t, id);
    LocksMatch(t, id);
    var d := t.definitions[id].(tag := Reported(t.definitions[id].tag));
    ReplaceKeepsLineage(t, id, d);
    SyncAgain(t, id, d);
  }

  // A definition is added under a root, with the next number.
  ghost predicate NextOf(t: Tables, id: string, row: DefinitionRow) {
    && id !in t.definitions
    && !row.locked && row.status == Draft
    && (row.root == "" ==> id == "")
    && if row.root == id then row.number == 1 && row.previous == None
       else
         && row.root in t.definitions && t.definitions[row.root].root == row.root
         && row.previous.Some? && Family(t, row.root, row.previous.value)
         && row.number >= 2
         && (forall q :: Family(t, row.root, q) ==> t.definitions[q].number < row.number)
         && exists p :: Family(t, row.root, p) && t.definitions[p].number == row.number - 1
  }

  lemma AddedOk(t: Tables, t': Tables, id: string, row: DefinitionRow)
    requires Lineage(t) && NextOf(t, id, row) && t' == t.(definitions := t.definitions[id := row])
    ensures DefinitionOk(t', id)
  {
    hide NumbersDiffer;
    if row.root != id {
      assert DefinitionOk(t, row.root);
      var p :| Family(t, row.root, p) && t.definitions[p].number == row.number - 1;
      assert Family(t', row.root, p) && t'.definitions[p].number == row.number - 1;
    }
  }

  lemma OthersOk(t: Tables, t': Tables, id: string, row: DefinitionRow, q: string)
    requires Lineage(t) && NextOf(t, id, row) && t' == t.(definitions := t.definitions[id := row])
    requires q in t.definitions
    ensures DefinitionOk(t', q)
  {
    hide NumbersDiffer;
    assert DefinitionOk(t, q);
    var d := t.definitions[q];
    if d.number > 1 {
      var p :| Family(t, d.root, p) && t.definitions[p].number == d.number - 1;
      assert Family(t', d.root, p) && t'.definitions[p].number == d.number - 1;
    }
  }

  lemma AddedDiffers(t: Tables, t': Tables, id: string, row: DefinitionRow)
    requires Lineage(t) && NextOf(t, id, row) && t' == t.(definitions := t.definitions[id := row])
    ensures NumbersDiffer(t')
  {
    forall q | q in t.definitions
      ensures !SameNumber(t.definitions[q], row)
    {
      assert DefinitionOk(t, q);
      assert t.definitions[q].root == row.root ==> Family(t, row.root, q);
    }
  }

  lemma AddKeepsLineage(t: Tables, id: string, row: DefinitionRow)
    requires Lineage(t) && NextOf(t, id, row)
    ensures Lineage(Sync(t.(definitions := t.definitions[id := row]), id))
  {
    hide Sync;
    var t' := t.(definitions := t.definitions[id := row]);
    forall q | q in t'.definitions
      ensures DefinitionOk(t', q)
    {
      if q == id {
        AddedOk(t, t', id, row);
      } else {
        OthersOk(t, t', id, row, q);
      }
    }
    AddedDiffers(t, t', id, row);
    assert t.versions.Keys + {id} == t'.definitions.Keys;
    forall q | q in t'.definitions && q != id
      ensures VersionAgrees(t', q)
    {
      assert VersionAgrees(t, q);
    }
    SyncAgrees(t', id);
    SyncKeepsDefinitions(t', id);
  }

  // The number of a new version is the next one of its root.
  lemma NextNumber(t: Tables, source: string)
    requires Lineage(t) && source in t.definitions
    ensures var root := t.definitions[source].root;
            var max := MaxNumber(t, root);
            && max >= 1
            && (forall q :: Family(t, root, q) ==> t.definitions[q].number <= max)
            && exists p :: Family(t, root, p) && t.definitions[p].number == max
  {
    var root := t.definitions[source].root;
    assert DefinitionOk(t, source);
    assert t.definitions[source].number in NumbersUnder(t, root);
    var max := MaxNumber(t, root);
    assert max in NumbersUnder(t, root);
    var p :| p in t.definitions && t.definitions[p].root == root && t.definitions[p].number == max;
    assert Family(t, root, p);
    forall q | Family(t, root, q)
      ensures t.definitions[q].number <= max
    {
      assert t.definitions[q].number in NumbersUnder(t, root);
    }
  }

  // --- Every request keeps the state good ------------------------------------------------

  // The request changes one definition and, at most, takes its certification away.
  ghost predicate ChangesOne(s: State, s': State, id: string) {
    && s'.certified == s.certified
    && s'.tables.revisions == s.tables.revisions && s'.tables.scenarios == s.tables.scenarios
    && s'.tables.definitions.Keys == s.tables.definitions.Keys + {id}
    && (forall q :: q in s.tables.definitions && q != id ==> s'.tables.definitions[q].config == s.tables.definitions[q].config)
    && NormalOnce(s'.tables.definitions[id].config.graph)
    && s'.tables.certs.Keys == s.tables.certs.Keys
    && (forall q :: q in s.tables.certs && q != id ==> s'.tables.certs[q] == s.tables.certs[q])
    && (id in s.tables.certs ==>
          || s'.tables.certs[id].status != CertCertified
          || (&& s'.tables.certs[id] == s.tables.certs[id]
              && id in s.tables.definitions && s'.tables.definitions[id].config == s.tables.definitions[id].config))
  }

  lemma ProvenanceStays(s: State, s': State, m: Manifest)
    requires Provenance(s, m) && s.certified <= s'.certified
    ensures Provenance(s', m)
  {
    hide CompiledFrom;
    var config :| config in s.certified && CompiledFrom(m, config);
    assert config in s'.certified;
  }

  lemma ChangesOneGood(s: State, s': State, id: string)
    requires Good(s) && ChangesOne(s, s', id) && Lineage(s'.tables)
    ensures Good(s')
  {
    hide Lineage, NormalOnce, Provenance, Certifies;
    forall q | q in s'.tables.certs
      ensures CertFresh(s', q)
    {
      assert CertFresh(s, q);
    }
    assert RevisionsTraced(s') by {
      forall r | r in s'.tables.revisions
        ensures Provenance(s', s'.tables.revisions[r].manifest)
      {
        ProvenanceStays(s, s', s.tables.revisions[r].manifest);
      }
    }
    assert ActiveProved(s'.tables) && OneActive(s'.tables);
  }

  lemma PostedIsNormal(x: Posted, registered: map<string, string>)
    ensures PostedGraph(x, registered).Some? ==> NormalOnce(PostedGraph(x, registered).value)
  {
    hide AgentsNamed, TypesNamed, VOCABULARY;
    if PostedGraph(x, registered).Some? {
      Laws.NormalizedIsNormal(x.payload, Registry(VOCABULARY, TypesNamed(x.payload, registered)));
      assert NormalWith(PostedGraph(x, registered).value, TypesNamed(x.payload, registered));
    }
  }

  lemma NewIsNext(t: Tables, id: string, x: Posted, g: Graph)
    requires id !in t.definitions
    ensures NextOf(t, id, NewDefinition(id, x, g))
  {
  }

  lemma ConfigGraph(x: Posted, g: Graph)
    ensures PostedConfig(x, g).graph == g
  {
  }

  lemma CertHasDefinition(s: State, id: string)
    requires id in s.tables.certs && CertFresh(s, id)
    ensures id in s.tables.definitions
  {
  }

  lemma SyncOnly(t: Tables, id: string)
    requires id in t.definitions
    ensures Sync(t, id) == t.(versions := Sync(t, id).versions)
  {
  }

  lemma CreateGood(s: State, id: string, x: Posted, registered: map<string, string>)
    requires Good(s) && Upsert(s.tables, id, x, registered).Some? && id !in s.tables.definitions
    ensures Good(s.(tables := Upsert(s.tables, id, x, registered).value))
  {
    hide Lineage, PostedGraph, NormalOnce, CertFresh, Sync, EnsureLineage, PostedConfig, PostedMetadata, PostedHash;
    var g, t := PostedGraph(x, registered).value, s.tables;
    PostedIsNormal(x, registered);
    var row := NewDefinition(id, x, g);
    NewIsNext(t, id, x, g);
    AddKeepsLineage(t, id, row);
    SyncOnly(t.(definitions := t.definitions[id := row]), id);
    assert id !in t.certs by { if id in t.certs { assert CertFresh(s, id); CertHasDefinition(s, id); } }
    assert row.config.graph == g by { ConfigGraph(x, g); }
    ChangesOneGood(s, s.(tables := Upsert(t, id, x, registered).value), id);
  }

  // What an edit leaves: the definition with its new graph, and no certification.
  ghost predicate EditLeaves(t: Tables, t': Tables, id: string, x: Posted, g: Graph)
    requires id in t.definitions
  {
    && t'.revisions == t.revisions && t'.scenarios == t.scenarios
    && t'.definitions == t.definitions[id := Edited(t.definitions[id].(tag := Reported(t.definitions[id].tag)), x, g)]
    && t'.certs == (if id in t.certs && t.certs[id].status != CertDraft && t.certs[id].status != CertStale
                    then t.certs[id := t.certs[id].(status := CertStale)] else t.certs)
    && Lineage(t')
  }

  lemma SameRowsSameLineage(t: Tables, t': Tables)
    requires Lineage(t) && t'.definitions == t.definitions && t'.versions == t.versions
    ensures Lineage(t')
  {
    forall id | id in t'.definitions
      ensures DefinitionOk(t', id) && VersionAgrees(t', id)
    {
      assert DefinitionOk(t, id) && VersionAgrees(t, id);
      SameLineOk(t, t', id);
    }
  }

  // Lineage is about definitions and versions only.
  lemma LineageIgnoresCerts(synced: Tables, other: Tables, id: string, edited: Tables)
    requires id in edited.definitions && synced == Sync(edited, id) && Lineage(synced)
    requires other.definitions == edited.definitions && other.versions == edited.versions
    ensures Lineage(Sync(other, id))
  {
    hide NumbersDiffer;
    var t := Sync(other, id);
    assert t.definitions == synced.definitions && t.versions == synced.versions;
    SameRowsSameLineage(synced, t);
  }

  lemma EditKeepsLineage(t: Tables, id: string, x: Posted, g: Graph)
    requires Lineage(t) && id in t.definitions && t.definitions[id].tag != ""
    requires !t.definitions[id].locked && !LockedStatus(t.definitions[id].status)
    ensures Lineage(Sync(Invalidate(t.(definitions := t.definitions[id := Edited(t.definitions[id], x, g)]), id), id))
  {
    hide Lineage, Sync;
    var edited := t.(definitions := t.definitions[id := Edited(t.definitions[id], x, g)]);
    ReplaceKeepsLineage(t, id, Edited(t.definitions[id], x, g));
    LineageIgnoresCerts(Sync(edited, id), Invalidate(edited, id), id, edited);
  }

  lemma EditShape(t: Tables, id: string, x: Posted, registered: map<string, string>)
    requires Lineage(t) && Upsert(t, id, x, registered).Some? && id in t.definitions
    ensures EditLeaves(t, Upsert(t, id, x, registered).value, id, x, PostedGraph(x, registered).value)
  {
    hide Lineage, PostedGraph, Sync, EnsureLineage, PostedConfig, PostedMetadata, PostedHash;
    var g := PostedGraph(x, registered).value;
    EnsureKeepsLineage(t, id);
    var ensured := EnsureLineage(t, id);
    EditKeepsLineage(ensured, id, x, g);
    SyncOnly(Invalidate(ensured.(definitions := ensured.definitions[id := Edited(ensured.definitions[id], x, g)]), id), id);
  }

  lemma UpsertHasGraph(t: Tables, id: string, x: Posted, registered: map<string, string>)
    requires Upsert(t, id, x, registered).Some?
    ensures PostedGraph(x, registered).Some?
  {
    hide PostedGraph;
  }

  lemma EditGood(s: State, id: string, x: Posted, registered: map<string, string>)
    requires Good(s) && Upsert(s.tables, id, x, registered).Some? && id in s.tables.definitions
    ensures Good(s.(tables := Upsert(s.tables, id, x, registered).value))
  {
    hide Lineage, NormalOnce, Upsert, CertsFresh, RevisionsTraced, OneActive, ActiveProved, ConfigsNormal,
         PostedGraph, PostedConfig, PostedMetadata, PostedHash;
    UpsertHasGraph(s.tables, id, x, registered);
    var g := PostedGraph(x, registered).value;
    PostedIsNormal(x, registered);
    EditShape(s.tables, id, x, registered);
    ConfigGraph(x, g);
    ChangesOneGood(s, s.(tables := Upsert(s.tables, id, x, registered).value), id);
  }

  lemma UpsertGood(s: State, id: string, x: Posted, registered: map<string, string>)
    requires Good(s) && Upsert(s.tables, id, x, registered).Some?
    ensures Good(s.(tables := Upsert(s.tables, id, x, registered).value))
  {
    hide Good, Upsert;
    if id in s.tables.definitions {
      EditGood(s, id, x, registered);
    } else {
      CreateGood(s, id, x, registered);
    }
  }

  function VersionedRow(t: Tables, source: string, tag: string): DefinitionRow
    requires source in t.definitions
  {
    var d, max := t.definitions[source], MaxNumber(t, t.definitions[source].root);
    DefinitionRow(d.config, d.metadata[VersionCreatedFrom := String(source)], d.graphHash, RootOf(source, d), tag,
                  (if max == 0 then 1 else max) + 1, Some(source), Draft, false)
  }

  lemma VersionIsNext(t: Tables, source: string, id: string, tag: string)
    requires LinesOk(t) && source in t.definitions && source != "" && id !in t.definitions
    requires DefinitionOk(t, source)
    requires var root := t.definitions[source].root;
             var max := MaxNumber(t, root);
             && max >= 1
             && (forall q :: Family(t, root, q) ==> t.definitions[q].number <= max)
             && exists p :: Family(t, root, p) && t.definitions[p].number == max
    ensures NextOf(t, id, VersionedRow(t, source, tag))
  {
    hide MaxNumber;
  }

  // The source's own row is up to date, so synchronising it changes nothing.
  lemma SyncTwice(t: Tables, source: string, id: string, row: DefinitionRow)
    requires Lineage(t) && source in t.definitions && t.definitions[source].tag != "" && id !in t.definitions
    ensures var t' := t.(definitions := t.definitions[id := row]);
            Sync(t', source) == t'
  {
    hide NumbersDiffer;
    assert DefinitionOk(t, source) && VersionAgrees(t, source);
    var t' := t.(definitions := t.definitions[id := row]);
    assert Sync(t', source).versions == t.versions;
  }

  lemma VersionKeepsLineage(t: Tables, source: string, id: string, tag: string)
    requires Lineage(t) && source in t.definitions && source != "" && id !in t.definitions
    requires t.definitions[source].tag != ""
    ensures Lineage(Sync(Sync(t.(definitions := t.definitions[id := VersionedRow(t, source, tag)]), source), id))
  {
    hide Sync, NumbersDiffer;
    var row := VersionedRow(t, source, tag);
    NextNumber(t, source);
    assert DefinitionOk(t, source);
    VersionIsNext(t, source, id, tag);
    AddKeepsLineage(t, id, row);
    SyncTwice(t, source, id, row);
  }

  lemma NewVersionGood(s: State, source: string, id: string, tag: string)
    requires Good(s) && source != "" && NewVersion(s.tables, source, id, tag).Some?
    ensures Good(s.(tables := NewVersion(s.tables, source, id, tag).value))
  {
    hide Lineage, NormalOnce, CertFresh, Sync, EnsureLineage, MaxNumber;
    var t := s.tables;
    EnsureKeepsLineage(t, source);
    var ensured := EnsureLineage(t, source);
    VersionKeepsLineage(ensured, source, id, tag);
    assert id !in t.certs by { if id in t.certs { assert CertFresh(s, id); CertHasDefinition(s, id); } }
    var d := ensured.definitions[source];
    var row := VersionedRow(ensured, source, tag);
    SyncOnly(ensured.(definitions := ensured.definitions[id := row]), source);
    SyncOnly(Sync(ensured.(definitions := ensured.definitions[id := row]), source), id);
    ChangesOneGood(s, s.(tables := NewVersion(t, source, id, tag).value), id);
  }

  lemma LineageLocks(t: Tables, id: string)
    requires Lineage(t) && id in t.definitions
    ensures LockedStatus(t.definitions[id].status) <==> t.definitions[id].locked
  {
    assert DefinitionOk(t, id);
  }

  lemma TransitionGood(s: State, id: string, target: Lifecycle)
    requires Good(s) && Transition(s.tables, id, target).Some?
    ensures Good(s.(tables := Transition(s.tables, id, target).value))
  {
    hide Lineage, NormalOnce, CertFresh, Sync, EnsureLineage;
    var t := s.tables;
    EnsureKeepsLineage(t, id);
    var ensured := EnsureLineage(t, id);
    var d := ensured.definitions[id];
    var moved := d.(status := target, locked := d.locked || LockedStatus(target));
    LineageLocks(ensured, id);
    ReplaceKeepsLineage(ensured, id, moved);
    SyncOnly(ensured.(definitions := ensured.definitions[id := moved]), id);
    ChangesOneGood(s, s.(tables := Transition(t, id, target).value), id);
  }

  // --- Evaluation -----------------------------------------------------------------------------

  lemma EvaluationGood(s: State, id: string, a: Assignments)
    requires Good(s) && id != "" && id in s.tables.definitions
    ensures Good(Serve(s, PostEvaluation(id, a)))
  {
    hide Lineage, NormalOnce, EnsureLineage, Provenance, Certifies;
    var t, s' := s.tables, Serve(s, PostEvaluation(id, a));
    EnsureKeepsLineage(t, id);
    var config := t.definitions[id].config;
    SameRowsSameLineage(EnsureLineage(t, id), s'.tables);
    forall q | q in s'.tables.certs
      ensures CertFresh(s', q)
    {
      if q != id {
        assert CertFresh(s, q);
      }
    }
    forall r | r in s'.tables.revisions
      ensures Provenance(s', s'.tables.revisions[r].manifest)
    {
      ProvenanceStays(s, s', s.tables.revisions[r].manifest);
    }
    assert ActiveProved(s'.tables) && OneActive(s'.tables);
  }

  // --- Deployments -----------------------------------------------------------------------------

  lemma CompileOnlyCertified(certified: bool, g: Graph, metadata: Dict, secret: bool, m: Manifest)
    requires Compile(certified, g, metadata, secret) == Ok(m)
    ensures certified && m.metadata == metadata && Compile(true, g, m.metadata, false) == Ok(m)
  {
    hide NodeValid, EdgeValid, NodeRecord, EdgeRecord;
  }

  lemma DeployGood(s: State, id: string, deployment: string, secret: bool)
    requires Good(s) && Deploy(s.tables, id, deployment, secret).Some?
    ensures Good(s.(tables := Deploy(s.tables, id, deployment, secret).value))
  {
    hide Lineage, NormalOnce, EnsureLineage, Certifies, Compile;
    var t := s.tables;
    EnsureKeepsLineage(t, id);
    var ensured, s' := EnsureLineage(t, id), s.(tables := Deploy(t, id, deployment, secret).value);
    SameRowsSameLineage(ensured, s'.tables);
    var d := ensured.definitions[id];
    var m := s'.tables.revisions[deployment].manifest;
    CompileOnlyCertified(ensured.certs[id].status == CertCertified, d.config.graph, d.metadata, secret, m);
    assert CertFresh(s, id);
    assert CompiledFrom(m, d.config);
    forall q | q in s'.tables.certs
      ensures CertFresh(s', q)
    {
      assert CertFresh(s, q);
    }
    forall r | r in s'.tables.revisions
      ensures Provenance(s', s'.tables.revisions[r].manifest)
    {
      if r != deployment {
        ProvenanceStays(s, s', s.tables.revisions[r].manifest);
      }
    }
    assert ActiveProved(s'.tables) && OneActive(s'.tables);
  }

  // --- Scenario runs and activation ---------------------------------------------------------------

  // A suite passes exactly if it has a case and every case passed.
  lemma {:induction false} CountsAll(results: seq<bool>)
    ensures Count(results) == |results| <==> forall i :: 0 <= i < |results| ==> results[i]
  {
    if |results| > 0 {
      CountsAll(results[..|results| - 1]);
    }
  }

  lemma RatioIsOne(passed: nat, total: nat)
    requires 0 < total && passed <= total
    ensures (passed as real) / (total as real) >= 1.0 <==> passed == total
  {
    var p, n := passed as real, total as real;
    if passed < total {
      assert p < n;
      assert p / n < 1.0 by {
        assert (p / n) * n == p;
      }
    }
  }

  lemma VerdictIsAll(results: seq<bool>)
    ensures SuiteVerdict(results) <==> results != [] && forall i :: 0 <= i < |results| ==> results[i]
  {
    hide Count;
    CountsAll(results);
    if results != [] {
      RatioIsOne(Count(results), |results|);
    }
  }

  // Certifications, configurations and provenance do not look at scenario runs or at the
  // status of revisions.
  lemma SameRestGood(s: State, s': State)
    requires CertsFresh(s) && ConfigsNormal(s) && RevisionsTraced(s)
    requires s'.certified == s.certified && s'.tables.definitions == s.tables.definitions && s'.tables.certs == s.tables.certs
    requires s'.tables.revisions.Keys == s.tables.revisions.Keys
    requires forall r :: r in s.tables.revisions ==> s'.tables.revisions[r].manifest == s.tables.revisions[r].manifest
    ensures CertsFresh(s') && ConfigsNormal(s') && RevisionsTraced(s')
  {
    hide NormalOnce, Certifies;
    forall q | q in s'.tables.certs
      ensures CertFresh(s', q)
    {
      assert CertFresh(s, q);
    }
    forall r | r in s'.tables.revisions
      ensures Provenance(s', s'.tables.revisions[r].manifest)
    {
      ProvenanceStays(s, s', s.tables.revisions[r].manifest);
    }
  }

  lemma ScenarioGood(s: State, deployment: string, results: seq<bool>)
    requires Good(s) && RunScenarios(s.tables, deployment, results).Some?
    ensures Good(s.(tables := RunScenarios(s.tables, deployment, results).value))
  {
    hide Lineage, NormalOnce, Certifies, SuiteVerdict, Count, CertFresh, Provenance;
    var s' := s.(tables := RunScenarios(s.tables, deployment, results).value);
    VerdictIsAll(results);
    CountsAll(results);
    SameRowsSameLineage(s.tables, s'.tables);
    SameRestGood(s, s');
    forall r | HasPassingRun(s.tables, r)
      ensures HasPassingRun(s'.tables, r)
    {
      var x :| x in s.tables.scenarios && x.deployment == r && x.pass;
      assert x in s'.tables.scenarios;
    }
  }

  lemma SameScenarios(t: Tables, t': Tables, r: string)
    requires t'.scenarios == t.scenarios
    ensures HasPassingRun(t', r) <==> HasPassingRun(t, r)
  {
  }

  lemma ActivationGood(s: State, deployment: string)
    requires Good(s) && Activate(s.tables, deployment).Some?
    ensures Good(s.(tables := Activate(s.tables, deployment).value))
  {
    hide Lineage, NormalOnce, Certifies, CertFresh, Provenance, HasPassingRun;
    var s' := s.(tables := Activate(s.tables, deployment).value);
    SameRowsSameLineage(s.tables, s'.tables);
    SameRestGood(s, s');
    forall r
      ensures HasPassingRun(s'.tables, r) <==> HasPassingRun(s.tables, r)
    {
      SameScenarios(s.tables, s'.tables, r);
    }
    assert OneActive(s'.tables);
    assert ActiveProved(s'.tables);
  }

  // --- Over all request sequences ---------------------------------------------------------------------

  lemma ReadGood(s: State, id: string)
    requires Good(s) && id in s.tables.definitions
    ensures Good(s.(tables := EnsureLineage(s.tables, id)))
  {
    hide Lineage, NormalOnce, CertFresh, EnsureLineage;
    EnsureKeepsLineage(s.tables, id);
    ChangesOneGood(s, s.(tables := EnsureLineage(s.tables, id)), id);
  }

  lemma ServeGood(s: State, r: Request)
    requires Good(s)
    ensures Good(Serve(s, r))
  {
    hide Good, Upsert, NewVersion, Transition, Deploy, RunScenarios, Activate, BeginEvaluation, EndEvaluation,
         Certifies;
    match r
    case GetDefinition(id) =>
      if id in s.tables.definitions { ReadGood(s, id); }
    case PostDefinition(id, x, registered) =>
      if Upsert(s.tables, id, x, registered).Some? { UpsertGood(s, id, x, registered); }
    case PostVersion(source, id, tag) =>
      if source != "" && NewVersion(s.tables, source, id, tag).Some? { NewVersionGood(s, source, id, tag); }
    case PostLifecycle(id, target) =>
      if Transition(s.tables, id, target).Some? { TransitionGood(s, id, target); }
    case PostEvaluation(id, a) =>
      if id != "" && id in s.tables.definitions { EvaluationGood(s, id, a); }
    case PostDeployment(id, d, secret) =>
      if Deploy(s.tables, id, d, secret).Some? { DeployGood(s, id, d, secret); }
    case PostScenarioRun(d, results) =>
      if RunScenarios(s.tables, d, results).Some? { ScenarioGood(s, d, results); }
    case PostActivation(d) =>
      if Activate(s.tables, d).Some? { ActivationGood(s, d); }
  }

  lemma {:induction false} ServeAllGood(rs: seq<Request>)
    ensures Good(ServeAll(INITIAL, rs))
    decreases |rs|
  {
    hide Serve;
    if |rs| > 0 {
      ServeAllGood(rs[..|rs| - 1]);
      ServeGood(ServeAll(INITIAL, rs[..|rs| - 1]), rs[|rs| - 1]);
    }
  }
}
