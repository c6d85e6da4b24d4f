// Safety of durable runs over every execution in which reviewers are careful:
// exclusion, the language of the outbox log, the status it tells, the reviews that
// are open, and the approved ids that workers go by.
module RunTheorems {
  import opened Outcomes
  import opened RunLog
  import opened RunTables
  import opened RunProtocol
  import opened RunInvariant
  import opened RunPreserved
  import opened RunPreservedReview
  import opened RunPreservedApproval

  // Some execution with careful reviewers leads from the empty tables to s.
  ghost predicate Reached(c: Config, s: State, ls: seq<Label>, patient: bool) {
    Legal(c, INITIAL, ls, patient) && After(c, INITIAL, ls) == Some(s)
  }

  lemma ReachedInv(c: Config, s: State, ls: seq<Label>, patient: bool)
    requires Reached(c, s, ls, patient)
    ensures Inv(c, s)
  {
    InitialInv(c);
    ExecutionKeepsInv(c, INITIAL, ls, patient);
  }

  // A number that is not in use.
  lemma {:induction false} FreeNat(used: set<nat>) returns (n: nat)
    ensures forall u :: u in used ==> u < n
    decreases used
  {
    if used == {} {
      n := 0;
    } else {
      var u :| u in used;
      var n' := FreeNat(used - {u});
      n := if u < n' then n' else u + 1;
      forall x | x in used
        ensures x < n
      {
        assert x == u || x in used - {u};
      }
    }
  }

  // No request is on the run.
  ghost predicate Quiet(s: State, r: nat) {
    && (forall w :: w in s.workers ==> s.workers[w].run != r)
    && (forall v :: v in s.reviewers ==> s.reviewers[v].run != r)
  }

  // No two workers hold the same run, and no worker holds a run that can be claimed.
  ghost predicate Exclusive(s: State) {
    && (forall w1, w2 :: w1 in s.workers && w2 in s.workers && s.workers[w1].run == s.workers[w2].run ==> w1 == w2)
    && (forall w :: w in s.workers ==> s.workers[w].run in s.db.runs && s.db.runs[s.workers[w].run].status != QUEUED)
  }

  // Every review is decided at most once in the log.
  ghost predicate DecidedOnce(log: seq<Event>) {
    forall i, j :: 0 <= i < |log| && 0 <= j < |log| && log[i].Approved? && log[j].Denied? ==> log[i].mark != log[j].mark
  }

  // The log of every run is in its language, and once no request is on the run it
  // tells the run's status.
  ghost predicate LogsTell(s: State) {
    forall r :: r in s.db.runs ==>
      var log := LogOf(s.db, r);
      && LooseLog(WithoutApprovals(log))
      && ApprovalsMatched(log)
      && DecidedOnce(log)
      && (Quiet(s, r) ==> s.db.runs[r].status == LogStatus(log))
  }

  // --- Exclusion ----------------------------------------------------------------------

  ghost predicate Holds(s: State, w: nat)
    requires w in s.workers
  {
    var r := s.workers[w].run;
    r in s.db.runs && r in s.charge && s.charge[r] == ByWorker(w) && s.db.runs[r].status != QUEUED
  }

  lemma HeldRun(c: Config, s: State, w: nat, r: nat)
    requires w in s.workers && s.workers[w].run == r && r in s.db.runs && RunOk(c, s, r)
    ensures r in s.charge && s.charge[r] == ByWorker(w)
    ensures s.db.runs[r].status != QUEUED
    ensures WorkerAgrees(c, s.db, s.workers[w], r)
  {
  }

  lemma InvHolds(c: Config, s: State, w: nat)
    requires Inv(c, s) && w in s.workers
    ensures Holds(s, w)
  {
    HeldRun(c, s, w, s.workers[w].run);
  }

  lemma ExclusiveFromHolds(s: State)
    requires forall w :: w in s.workers ==> Holds(s, w)
    ensures Exclusive(s)
  {
    forall w1, w2 | w1 in s.workers && w2 in s.workers && s.workers[w1].run == s.workers[w2].run
      ensures w1 == w2
    {
      assert Holds(s, w1) && Holds(s, w2);
    }
  }

  lemma InvExclusive(c: Config, s: State)
    requires Inv(c, s)
    ensures Exclusive(s)
  {
    forall w | w in s.workers
      ensures Holds(s, w)
    {
      InvHolds(c, s, w);
    }
    ExclusiveFromHolds(s);
  }

  lemma ExclusionOverRuns(c: Config, s: State, ls: seq<Label>, patient: bool)
    requires Reached(c, s, ls, patient)
    ensures Exclusive(s)
  {
    ReachedInv(c, s, ls, patient);
    InvExclusive(c, s);
  }

  // --- Logs -------------------------------------------------------------------------

  lemma LogInLanguage(c: Config, s: State, r: nat)
    requires r in s.db.runs && RowOk(c, s.db, s.claims, r) && InHand(c, s, r) && LogOk(s, r)
    ensures LooseLog(WithoutApprovals(LogOf(s.db, r)))
    ensures DecidedOnce(LogOf(s.db, r))
  {
    var log := LogOf(s.db, r);
    NotBroken(c, s, r);
    StageIsLooseLog(log);
    forall i, j | 0 <= i < |log| && 0 <= j < |log| && log[i].Approved? && log[j].Denied?
      ensures log[i].mark != log[j].mark
    {
      assert Approved(log[i].mark) in log && Denied(log[j].mark) in log;
    }
  }

  lemma QuietStatus(c: Config, s: State, r: nat)
    requires r in s.db.runs && Quiet(s, r)
    requires RowOk(c, s.db, s.claims, r) && InHand(c, s, r) && LogOk(s, r) && OwedOf(s, r)
    ensures s.db.runs[r].status == LogStatus(LogOf(s.db, r))
  {
    var log, k := LogOf(s.db, r), |s.db.runs[r].approved|;
    var ps := StageOf(log).pauses;
    assert s.charge[r] == Nobody;
    assert RestsWell(c, s.db, r);
    if |ps| == k && k > 0 {
      assert ps[k - 1].review in s.db.reviews && ps[k - 1].review !in s.owed;
    }
    assert |ps| == k + 1 ==> Approved(ps[k]) !in log;
  }

  lemma InvLogsTell(c: Config, s: State)
    requires Inv(c, s)
    ensures LogsTell(s)
  {
    forall r | r in s.db.runs
      ensures var log := LogOf(s.db, r);
              && LooseLog(WithoutApprovals(log))
              && ApprovalsMatched(log)
              && DecidedOnce(log)
              && (Quiet(s, r) ==> s.db.runs[r].status == LogStatus(log))
    {
      assert RunOk(c, s, r);
      LogInLanguage(c, s, r);
      if Quiet(s, r) {
        QuietStatus(c, s, r);
      }
    }
  }

  // Over every execution with careful reviewers: without its approvals each log is a
  // prefix of (started paused)* started (end | paused denied), approvals follow their
  // pauses once each, and a run at rest has the status its log tells.
  lemma LogsOverRuns(c: Config, s: State, ls: seq<Label>, patient: bool)
    requires Reached(c, s, ls, patient)
    ensures LogsTell(s)
  {
    ReachedInv(c, s, ls, patient);
    InvLogsTell(c, s);
  }

  // --- Reviews ------------------------------------------------------------------------

  // The reviews of the run that wait for a decision.
  ghost function Open(s: State, r: nat): set<nat> {
    set id | id in s.db.reviews && s.db.reviews[id].run == r && s.db.reviews[id].state == Waiting
  }

  // A run in REVIEW that nobody works on has exactly one open review, any other run
  // that nobody works on has none.
  ghost predicate ReviewsTell(s: State) {
    forall r :: r in s.db.runs && Quiet(s, r) ==>
      |Open(s, r)| == (if s.db.runs[r].status == REVIEW then 1 else 0)
  }

  // Which reviews are open, whoever has the run in hand.
  lemma OpenReviews(c: Config, s: State, r: nat)
    requires r in s.db.runs && RowOk(c, s.db, s.claims, r) && InHand(c, s, r) && ReviewsOf(s, r)
    ensures Open(s, r) ==
            match s.charge[r]
            case Nobody => (if s.db.runs[r].status == REVIEW then {Pauses(s.db, r)[|s.db.runs[r].approved|].review} else {})
            case ByReviewer(_) => {}
            case ByWorker(w) => (if s.workers[w].Pausing? || s.workers[w].PauseWritten? then {s.workers[w].mark.review} else {})
  {
    var ps, k := Pauses(s.db, r), |s.db.runs[r].approved|;
    forall id | id in Open(s, r)
      ensures (exists i :: k <= i < |ps| && ps[i].review == id) || AboutToAnnounce(s, r, Mark(id, s.db.reviews[id].hook))
    {
      var m := Mark(id, s.db.reviews[id].hook);
      if m in ps {
        var i :| 0 <= i < |ps| && ps[i] == m;
        assert i >= k;
      }
    }
    match s.charge[r]
    case Nobody => assert RestsWell(c, s.db, r);
    case ByWorker(w) => assert WorkerAgrees(c, s.db, s.workers[w], r);
    case ByReviewer(v) => assert ReviewerAgrees(c, s.db, s.reviewers[v], r);
  }

  lemma QuietReviews(c: Config, s: State, r: nat)
    requires r in s.db.runs && Quiet(s, r)
    requires RowOk(c, s.db, s.claims, r) && InHand(c, s, r) && ReviewsOf(s, r)
    ensures |Open(s, r)| == (if s.db.runs[r].status == REVIEW then 1 else 0)
  {
    assert s.charge[r] == Nobody;
    OpenReviews(c, s, r);
  }

  lemma InvReviewsTell(c: Config, s: State)
    requires Inv(c, s)
    ensures ReviewsTell(s)
  {
    forall r | r in s.db.runs && Quiet(s, r)
      ensures |Open(s, r)| == (if s.db.runs[r].status == REVIEW then 1 else 0)
    {
      assert RunOk(c, s, r);
      QuietReviews(c, s, r);
    }
  }

  // --- Work items -----------------------------------------------------------------------

  // The approved ids a worker claimed are those in the store as long as it may use them.
  ghost predicate ItemsFresh(s: State) {
    forall w :: w in s.workers ==>
      var p := s.workers[w];
      (p.Claimed? || p.Marked? || p.Announced? || p.Executing? || p.Pausing?) ==>
        p.run in s.db.runs && s.db.runs[p.run].approved == p.approved
  }

  lemma InvItemsFresh(c: Config, s: State)
    requires Inv(c, s)
    ensures ItemsFresh(s)
  {
    forall w | w in s.workers && !s.workers[w].PauseWritten? && !s.workers[w].BlockWritten?
               && !s.workers[w].EndWritten? && !s.workers[w].HandOverWritten?
      ensures s.workers[w].run in s.db.runs && s.db.runs[s.workers[w].run].approved == s.workers[w].approved
    {
      HeldRun(c, s, w, s.workers[w].run);
    }
  }

  // Reviews and work items over every execution with careful reviewers.
  lemma ReviewsOverRuns(c: Config, s: State, ls: seq<Label>, patient: bool)
    requires Reached(c, s, ls, patient)
    ensures ReviewsTell(s) && ItemsFresh(s)
  {
    ReachedInv(c, s, ls, patient);
    InvReviewsTell(c, s);
    InvItemsFresh(c, s);
  }
}
