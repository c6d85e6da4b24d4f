// Idempotent submission: the unique index on (deployment_id, idempotency_key) is
// exactly what makes interleaved submits of a key return one run.
module RunKeys {
  import opened Outcomes
  import opened RunLog
  import opened RunTables
  import opened RunProtocol

  // At most one run has a given deployment and key (the empty key included).
  ghost predicate KeysUnique(db: Db) {
    forall r1, r2 :: r1 in db.runs && r2 in db.runs
                     && db.runs[r1].deployment == db.runs[r2].deployment
                     && db.runs[r1].key == db.runs[r2].key && db.runs[r1].key.Some?
                     ==> r1 == r2
  }

  // A submit returned a run of its deployment and key.
  ghost predicate ReceiptsTrue(s: State) {
    forall e :: e in s.receipts ==>
      e.run in s.db.runs && s.db.runs[e.run].deployment == e.deployment && s.db.runs[e.run].key == e.key
  }

  // All submits of a key that return a run return the same one.
  ghost predicate ReceiptsAgree(s: State) {
    forall e1, e2 :: e1 in s.receipts && e2 in s.receipts
                     && e1.deployment == e2.deployment && e1.key == e2.key && e1.key.Some?
                     ==> e1.run == e2.run
  }

  // No step changes the deployment or the key of a run, or takes it away.
  ghost predicate KeepsRuns(s: State, s': State) {
    forall r :: r in s.db.runs ==>
      r in s'.db.runs && s'.db.runs[r].deployment == s.db.runs[r].deployment && s'.db.runs[r].key == s.db.runs[r].key
  }

  lemma WorkerStepKeepsRuns(c: Config, s: State, l: Label)
    requires Step(c, s, l).Some? && !OfSubmit(l) && !OfReview(l)
    ensures var s' := Step(c, s, l).value;
            KeepsRuns(s, s') && s'.db.runs.Keys == s.db.runs.Keys && s'.receipts == s.receipts
  {
    hide GateOf, LogOf, SubmitLookup, SubmitSelect, SubmitInsert, ReviewerResolves, ReviewerReadsRun,
         ReviewerRequeues, ReviewerAnnouncesApproval, ReviewerWritesDenial, ReviewerAnnouncesDenial;
  }

  lemma ReviewStepKeepsRuns(c: Config, s: State, l: Label)
    requires Step(c, s, l).Some? && OfReview(l)
    ensures var s' := Step(c, s, l).value;
            KeepsRuns(s, s') && s'.db.runs.Keys == s.db.runs.Keys && s'.receipts == s.receipts
  {
    hide LogOf, SubmitLookup, SubmitSelect, SubmitInsert, WorkerClaims, WorkerMarks, WorkerAnnouncesStart,
         WorkerOpensReview, WorkerWritesPause, WorkerAnnouncesPause, WorkerWritesBlock, WorkerAnnouncesBlock,
         WorkerExecutes, WorkerWritesEnd, WorkerAnnouncesEnd, WorkerWritesHandOver, WorkerAnnouncesHandOver;
  }

  lemma OtherStepKeepsRuns(c: Config, s: State, l: Label)
    requires Step(c, s, l).Some? && !OfSubmit(l)
    ensures var s' := Step(c, s, l).value;
            KeepsRuns(s, s') && s'.db.runs.Keys == s.db.runs.Keys && s'.receipts == s.receipts
  {
    hide Step, KeepsRuns;
    if OfReview(l) {
      ReviewStepKeepsRuns(c, s, l);
    } else {
      WorkerStepKeepsRuns(c, s, l);
    }
  }

  lemma LookupKeeps(c: Config, s: State, l: Label)
    requires Step(c, s, l).Some? && (l.Lookup? || l.SelectKey?)
    requires ReceiptsTrue(s)
    ensures var s' := Step(c, s, l).value; s'.db == s.db && ReceiptsTrue(s')
  {
    hide KeyTaken, Active, WorkerClaims, WorkerMarks, WorkerAnnouncesStart, WorkerOpensReview,
         WorkerWritesPause, WorkerAnnouncesPause, WorkerWritesBlock, WorkerAnnouncesBlock, WorkerExecutes,
         WorkerWritesEnd, WorkerAnnouncesEnd, WorkerWritesHandOver, WorkerAnnouncesHandOver, ReviewerResolves,
         ReviewerReadsRun, ReviewerRequeues, ReviewerAnnouncesApproval, ReviewerWritesDenial,
         ReviewerAnnouncesDenial;
  }

  lemma InsertKeeps(c: Config, s: State, l: Label)
    requires Step(c, s, l).Some? && l.Insert?
    requires ReceiptsTrue(s) && (c.indexed ==> KeysUnique(s.db))
    ensures var s' := Step(c, s, l).value;
            ReceiptsTrue(s') && (c.indexed ==> KeysUnique(s'.db))
  {
    hide WorkerClaims, WorkerMarks, WorkerAnnouncesStart, WorkerOpensReview, WorkerWritesPause,
         WorkerAnnouncesPause, WorkerWritesBlock, WorkerAnnouncesBlock, WorkerExecutes, WorkerWritesEnd,
         WorkerAnnouncesEnd, WorkerWritesHandOver, WorkerAnnouncesHandOver, ReviewerResolves,
         ReviewerReadsRun, ReviewerRequeues, ReviewerAnnouncesApproval, ReviewerWritesDenial,
         ReviewerAnnouncesDenial;
  }

  lemma StepKeepsKeys(c: Config, s: State, l: Label)
    requires Step(c, s, l).Some?
    requires ReceiptsTrue(s) && (c.indexed ==> KeysUnique(s.db))
    ensures var s' := Step(c, s, l).value;
            ReceiptsTrue(s') && (c.indexed ==> KeysUnique(s'.db))
  {
    if l.Insert? {
      InsertKeeps(c, s, l);
    } else if l.Lookup? || l.SelectKey? {
      LookupKeeps(c, s, l);
    } else {
      OtherStepKeepsRuns(c, s, l);
    }
  }

  lemma {:induction false} ExecutionKeepsKeys(c: Config, s: State, ls: seq<Label>)
    requires After(c, s, ls).Some?
    requires ReceiptsTrue(s) && (c.indexed ==> KeysUnique(s.db))
    ensures var s' := After(c, s, ls).value;
            ReceiptsTrue(s') && (c.indexed ==> KeysUnique(s'.db))
    decreases |ls|
  {
    if |ls| > 0 {
      StepKeepsKeys(c, s, ls[0]);
      ExecutionKeepsKeys(c, Step(c, s, ls[0]).value, ls[1..]);
    }
  }

  // Whatever workers and reviewers do: with the index there is one run for a key, and
  // every submit of the key that returns a run returns that one.
  lemma KeysOverRuns(c: Config, s: State, ls: seq<Label>)
    requires c.indexed && After(c, INITIAL, ls) == Some(s)
    ensures KeysUnique(s.db) && ReceiptsTrue(s) && ReceiptsAgree(s)
  {
    ExecutionKeepsKeys(c, INITIAL, ls);
  }

  // --- Without the index -----------------------------------------------------------------

  // Two submits that look up before either inserts.
  function RacingSubmits(d: string): seq<Label> {
    [Lookup(0, d, Some("k"), "q", None), Lookup(1, d, Some("k"), "q", None),
     SelectKey(0, None), SelectKey(1, None), Insert(0, 10), Insert(1, 11)]
  }

  function Inserted(s: State, u: nat, r: nat, d: string): State {
    s.(db := CreateRun(s.db, r, d, Some("k"), "q"),
       submits := s.submits - {u},
       charge := s.charge[r := Nobody],
       claims := s.claims[r := 0],
       receipts := s.receipts + [Receipt(d, Some("k"), r)])
  }

  function RacingStates(d: string): seq<State> {
    var k, q := Some("k"), "q";
    var s1 := INITIAL.(submits := map[0 := LookedUp(d, k, q)]);
    var s2 := s1.(submits := s1.submits[1 := LookedUp(d, k, q)]);
    var s3 := s2.(submits := s2.submits[0 := Selected(d, k, q)]);
    var s4 := s3.(submits := s3.submits[1 := Selected(d, k, q)]);
    var s5 := Inserted(s4, 0, 10, d);
    [INITIAL, s1, s2, s3, s4, s5, Inserted(s5, 1, 11, d)]
  }

  lemma RaceWithoutIndex(c: Config, d: string)
    requires !c.indexed && d in c.deployments
    ensures Chain(c, RacingStates(d), RacingSubmits(d))
    ensures !KeysUnique(RacingStates(d)[6].db) && !ReceiptsAgree(RacingStates(d)[6])
  {
    var ss, ls := RacingStates(d), RacingSubmits(d);
    assert Step(c, ss[0], ls[0]) == Some(ss[1]);
    assert Step(c, ss[1], ls[1]) == Some(ss[2]);
    assert Step(c, ss[2], ls[2]) == Some(ss[3]);
    assert Step(c, ss[3], ls[3]) == Some(ss[4]);
    assert Step(c, ss[4], ls[4]) == Some(ss[5]);
    assert Step(c, ss[5], ls[5]) == Some(ss[6]);
    var s := ss[6];
    assert 10 in s.db.runs && 11 in s.db.runs;
    assert s.receipts[0] == Receipt(d, Some("k"), 10) && s.receipts[1] == Receipt(d, Some("k"), 11);
    assert s.receipts[0] in s.receipts && s.receipts[1] in s.receipts;
  }

  // The index is exactly what uniqueness needs.
  lemma UniqueIffIndexed(c: Config, d: string)
    requires d in c.deployments
    ensures c.indexed <==>
            forall ls, s :: After(c, INITIAL, ls) == Some(s) ==> KeysUnique(s.db) && ReceiptsAgree(s)
  {
    if c.indexed {
      forall ls, s | After(c, INITIAL, ls) == Some(s)
        ensures KeysUnique(s.db) && ReceiptsAgree(s)
      {
        KeysOverRuns(c, s, ls);
      }
    } else {
      RaceWithoutIndex(c, d);
      ChainAfter(c, RacingStates(d), RacingSubmits(d));
    }
  }
}
