// Every careful step keeps the invariant, transaction by transaction. A step is on
// one run: the frame lemmas of RunInvariant cover the others.
module RunPreserved {
  import opened Outcomes
  import opened RunLog
  import opened RunTables
  import opened RunProtocol
  import opened RunInvariant

  function Pauses(db: Db, r: nat): seq<Mark> {
    StageOf(LogOf(db, r)).pauses
  }

  // The step is on run r only.
  ghost predicate Only(s: State, s': State, r: nat) {
    && s'.db.runs.Keys == s.db.runs.Keys
    && r in s.db.runs
    && forall q :: q in s.db.runs && q != r ==> SameRun(s, s', q) && SameActors(s, s', q) && SameReviews(s, s', q)
  }

  lemma Compose(c: Config, s: State, s': State, r: nat)
    requires Inv(c, s) && Only(s, s', r)
    requires Homes(c, s') && RunOk(c, s', r)
    ensures Inv(c, s')
  {
    forall q | q in s'.db.runs
      ensures RunOk(c, s', q)
    {
      if q != r {
        RunFrame(c, s, s', q);
      }
    }
  }

  // --- Steps of a worker ---------------------------------------------------

  ghost predicate RunPatched(s: State, s': State, r: nat) {
    && r in s.db.runs && r in s'.db.runs && s'.db.runs == s.db.runs[r := s'.db.runs[r]]
    && (s'.db.outbox == s.db.outbox
        || (r in s'.db.outbox && s'.db.outbox == s.db.outbox[r := s'.db.outbox[r]]))
    && r in s'.charge && s'.charge == s.charge[r := s'.charge[r]]
    && r in s'.claims && s'.claims == s.claims[r := s'.claims[r]]
    && s'.submits == s.submits
  }

  // w is the only worker whose request moves, and it moves on run r.
  ghost predicate WorkerMoved(s: State, s': State, w: nat, r: nat) {
    && RunPatched(s, s', r)
    && (w in s.workers ==> s.workers[w].run == r)
    && (|| s'.workers == s.workers - {w}
        || (w in s'.workers && s'.workers[w].run == r && s'.workers == s.workers[w := s'.workers[w]]))
    && s'.reviewers == s.reviewers && s'.owed == s.owed
  }

  ghost predicate ReviewAdded(s: State, s': State, r: nat, id: nat) {
    id !in s.db.reviews && exists h :: s'.db.reviews == s.db.reviews[id := ReviewRow(r, h, Waiting)]
  }

  lemma WorkerOnly(s: State, s': State, w: nat, r: nat, id: nat)
    requires WorkerMoved(s, s', w, r)
    requires s'.db.reviews == s.db.reviews || ReviewAdded(s, s', r, id)
    ensures Only(s, s', r)
  {
    forall q | q in s.db.runs && q != r
      ensures SameRun(s, s', q) && SameActors(s, s', q) && SameReviews(s, s', q)
    {
      assert LogOf(s'.db, q) == LogOf(s.db, q);
    }
  }

  lemma WorkerHomes(c: Config, s: State, s': State, w: nat, r: nat, id: nat)
    requires Homes(c, s) && WorkerMoved(s, s', w, r)
    requires s'.db.reviews == s.db.reviews || ReviewAdded(s, s', r, id)
    ensures Homes(c, s')
  {
  }

  // Who is on the run after a worker's step.
  lemma WorkerSide(c: Config, s: State, s': State, w: nat, r: nat, id: nat)
    requires Homes(c, s) && WorkerMoved(s, s', w, r)
    requires s'.db.reviews == s.db.reviews || ReviewAdded(s, s', r, id)
    requires r in s.charge && (s.charge[r] == Nobody || s.charge[r] == ByWorker(w))
    requires s'.charge[r] == (if w in s'.workers then ByWorker(w) else Nobody)
    requires WorkersOf(s, r) && ReviewersOf(s, r) && OwedOf(s, r)
    requires s'.db.runs[r].approved == s.db.runs[r].approved
    requires Pauses(s.db, r) <= Pauses(s'.db, r)
    ensures WorkersOf(s', r) && ReviewersOf(s', r) && OwedOf(s', r)
  {
    assert ReviewersOf(s', r) by {
      forall v | v in s'.reviewers && s'.reviewers[v].run == r
        ensures s'.reviewers[v].Requeued?
        ensures s'.reviewers[v].mark.review in s'.owed && s'.owed[s'.reviewers[v].mark.review] == v
        ensures exists i :: 0 <= i < |s'.db.runs[r].approved| && i < |Pauses(s'.db, r)| && Pauses(s'.db, r)[i] == s'.reviewers[v].mark
      {
        var i :| 0 <= i < |s.db.runs[r].approved| && i < |Pauses(s.db, r)| && Pauses(s.db, r)[i] == s.reviewers[v].mark;
        assert Pauses(s'.db, r)[i] == s'.reviewers[v].mark;
      }
    }
  }

  // A status write that leaves the log, the reviews and the approvals as they are.
  ghost predicate StatusOnly(s: State, s': State, r: nat) {
    && r in s.db.runs && r in s'.db.runs
    && LogOf(s'.db, r) == LogOf(s.db, r)
    && s'.db.reviews == s.db.reviews
    && s'.db.runs[r].approved == s.db.runs[r].approved
    && s'.owed == s.owed
  }

  lemma LogSame(s: State, s': State, r: nat)
    requires r in s.db.runs && r in s'.db.runs && LogOk(s, r)
    requires LogOf(s'.db, r) == LogOf(s.db, r)
    requires s'.db.runs[r].approved == s.db.runs[r].approved && s'.owed == s.owed
    ensures LogOk(s', r)
  {
  }

  lemma ReviewsSame(s: State, s': State, r: nat, w: nat)
    requires ReviewsOf(s, r) && r in s.db.runs && StatusOnly(s, s', r)
    requires r in s.charge && w in s'.workers
    requires s.charge[r] == ByWorker(w) ==> w in s.workers
    requires r in s'.charge && s'.charge[r] == ByWorker(w)
    requires s.charge[r] == Nobody || s.charge[r] == ByWorker(w)
    requires s.charge[r] == ByWorker(w) && (s.workers[w].Pausing? || s.workers[w].PauseWritten?) ==>
               (s'.workers[w].Pausing? || s'.workers[w].PauseWritten?)
               && s'.workers[w].mark == s.workers[w].mark && s'.workers[w].run == s.workers[w].run
    ensures ReviewsOf(s', r)
  {
  }

  lemma StatusRow(c: Config, db: Db, claims: map<nat, nat>, r: nat, status: RunStatus)
    requires r in db.runs && RowOk(c, db, claims, r)
    requires db.runs[r].status != QUEUED && status != QUEUED
    requires Terminal(db.runs[r].status) ==> Terminal(status)
    ensures RowOk(c, SetStatus(db, r, status), claims, r)
  {
  }

  // Worker steps that write a status, or nothing.
  ghost predicate StatusStep(c: Config, s: State, s': State, w: nat, r: nat) {
    && WorkerMoved(s, s', w, r) && StatusOnly(s, s', r)
    && w in s.workers && w in s'.workers
    && s'.charge[r] == ByWorker(w) && r in s.claims && s'.claims[r] == s.claims[r]
    && (s'.db == s.db || s'.db == SetStatus(s.db, r, s'.db.runs[r].status))
    && s.db.runs[r].status != QUEUED && s'.db.runs[r].status != QUEUED
    && (Terminal(s.db.runs[r].status) ==> Terminal(s'.db.runs[r].status))
    && (s.workers[w].Pausing? || s.workers[w].PauseWritten? ==>
          (s'.workers[w].Pausing? || s'.workers[w].PauseWritten?) && s'.workers[w].mark == s.workers[w].mark)
    && s.db.runs[r].deployment in c.deployments && s'.db.runs[r].deployment == s.db.runs[r].deployment
    && WorkerAgrees(c, s'.db, s'.workers[w], r)
  }

  lemma LocalStatusStep(c: Config, s: State, s': State, w: nat, r: nat)
    requires Homes(c, s) && StatusStep(c, s, s', w, r) && RunOk(c, s, r)
    ensures RunOk(c, s', r)
  {
    assert s.charge[r] == ByWorker(w);
    WorkerSide(c, s, s', w, r, 0);
    LogSame(s, s', r);
    ReviewsSame(s, s', r, w);
    StatusRow(c, s.db, s.claims, r, s'.db.runs[r].status);
    assert RowOk(c, s'.db, s'.claims, r);
    assert InHand(c, s', r);
  }

  lemma KeepsStatusStep(c: Config, s: State, s': State, w: nat, r: nat)
    requires Inv(c, s) && StatusStep(c, s, s', w, r)
    ensures Inv(c, s') && Only(s, s', r)
  {
    LocalStatusStep(c, s, s', w, r);
    WorkerOnly(s, s', w, r, 0);
    WorkerHomes(c, s, s', w, r, 0);
    Compose(c, s, s', r);
  }

  lemma MarkIsStatusStep(c: Config, s: State, s': State, w: nat, r: nat)
    requires WorkerMarks(c, s, w) == Some(s') && r == s.workers[w].run && RunOk(c, s, r)
    ensures StatusStep(c, s, s', w, r)
  {
  }

  lemma KeepsMark(c: Config, s: State, w: nat)
    requires Inv(c, s) && WorkerMarks(c, s, w).Some?
    ensures Inv(c, WorkerMarks(c, s, w).value)
    ensures Only(s, WorkerMarks(c, s, w).value, s.workers[w].run)
  {
    var s', r := WorkerMarks(c, s, w).value, s.workers[w].run;
    MarkIsStatusStep(c, s, s', w, r);
    KeepsStatusStep(c, s, s', w, r);
  }

  lemma WritePauseIsStatusStep(c: Config, s: State, s': State, w: nat, r: nat)
    requires WorkerWritesPause(s, w) == Some(s') && r == s.workers[w].run && RunOk(c, s, r)
    ensures StatusStep(c, s, s', w, r)
  {
  }

  lemma KeepsWritePause(c: Config, s: State, w: nat)
    requires Inv(c, s) && WorkerWritesPause(s, w).Some?
    ensures Inv(c, WorkerWritesPause(s, w).value)
    ensures Only(s, WorkerWritesPause(s, w).value, s.workers[w].run)
  {
    var s', r := WorkerWritesPause(s, w).value, s.workers[w].run;
    WritePauseIsStatusStep(c, s, s', w, r);
    KeepsStatusStep(c, s, s', w, r);
  }

  lemma WriteBlockIsStatusStep(c: Config, s: State, s': State, w: nat, r: nat)
    requires WorkerWritesBlock(c, s, w) == Some(s') && r == s.workers[w].run && RunOk(c, s, r)
    ensures StatusStep(c, s, s', w, r)
  {
  }

  lemma KeepsWriteBlock(c: Config, s: State, w: nat)
    requires Inv(c, s) && WorkerWritesBlock(c, s, w).Some?
    ensures Inv(c, WorkerWritesBlock(c, s, w).value)
    ensures Only(s, WorkerWritesBlock(c, s, w).value, s.workers[w].run)
  {
    var s', r := WorkerWritesBlock(c, s, w).value, s.workers[w].run;
    WriteBlockIsStatusStep(c, s, s', w, r);
    KeepsStatusStep(c, s, s', w, r);
  }

  lemma ExecuteIsStatusStep(c: Config, s: State, s': State, w: nat, r: nat)
    requires WorkerExecutes(c, s, w) == Some(s') && r == s.workers[w].run && RunOk(c, s, r) && Homes(c, s)
    ensures StatusStep(c, s, s', w, r)
  {
    assert s'.db.runs == s.db.runs[r := s'.db.runs[r]];
    assert s'.charge == s.charge[r := s'.charge[r]];
    assert s'.claims == s.claims[r := s'.claims[r]];
  }

  lemma KeepsExecute(c: Config, s: State, w: nat)
    requires Inv(c, s) && WorkerExecutes(c, s, w).Some?
    ensures Inv(c, WorkerExecutes(c, s, w).value)
    ensures Only(s, WorkerExecutes(c, s, w).value, s.workers[w].run)
  {
    var s', r := WorkerExecutes(c, s, w).value, s.workers[w].run;
    ExecuteIsStatusStep(c, s, s', w, r);
    KeepsStatusStep(c, s, s', w, r);
  }

  lemma WriteEndIsStatusStep(c: Config, s: State, s': State, w: nat, r: nat, ok: bool)
    requires WorkerWritesEnd(c, s, w, ok) == Some(s') && r == s.workers[w].run && RunOk(c, s, r)
    ensures StatusStep(c, s, s', w, r)
  {
  }

  lemma KeepsWriteEnd(c: Config, s: State, w: nat, ok: bool)
    requires Inv(c, s) && WorkerWritesEnd(c, s, w, ok).Some?
    ensures Inv(c, WorkerWritesEnd(c, s, w, ok).value)
    ensures Only(s, WorkerWritesEnd(c, s, w, ok).value, s.workers[w].run)
  {
    var s', r := WorkerWritesEnd(c, s, w, ok).value, s.workers[w].run;
    WriteEndIsStatusStep(c, s, s', w, r, ok);
    KeepsStatusStep(c, s, s', w, r);
  }

  lemma WriteHandOverIsStatusStep(c: Config, s: State, s': State, w: nat, r: nat)
    requires WorkerWritesHandOver(c, s, w) == Some(s') && r == s.workers[w].run && RunOk(c, s, r)
    ensures StatusStep(c, s, s', w, r)
  {
  }

  lemma KeepsWriteHandOver(c: Config, s: State, w: nat)
    requires Inv(c, s) && WorkerWritesHandOver(c, s, w).Some?
    ensures Inv(c, WorkerWritesHandOver(c, s, w).value)
    ensures Only(s, WorkerWritesHandOver(c, s, w).value, s.workers[w].run)
  {
    var s', r := WorkerWritesHandOver(c, s, w).value, s.workers[w].run;
    WriteHandOverIsStatusStep(c, s, s', w, r);
    KeepsStatusStep(c, s, s', w, r);
  }
}
