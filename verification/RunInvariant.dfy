// What every step of the run protocol keeps, as long as reviewers are careful.
module RunInvariant {
  import opened Outcomes
  import opened RunLog
  import opened RunTables
  import opened RunProtocol
  import Hooks = RuntimeHooks

  ghost predicate NoDuplicates<T>(s: seq<T>) {
    forall i, j :: 0 <= i < j < |s| ==> s[i] != s[j]
  }

  ghost predicate DistinctReviews(marks: seq<Mark>) {
    forall i, j :: 0 <= i < j < |marks| ==> marks[i].review != marks[j].review
  }

  ghost predicate ReviewIs(db: Db, m: Mark, r: nat, state: ReviewState) {
    m.review in db.reviews && db.reviews[m.review] == ReviewRow(r, m.hook, state)
  }

  // A review that is open: of this run, for a hook of its deployment not yet approved.
  ghost predicate Opens(c: Config, row: RunRow, m: Mark)
    requires row.deployment in c.deployments
  {
    m.hook !in row.approved && m.hook in HookIds(c.deployments[row.deployment])
  }

  // The run as its worker left it.
  ghost predicate WorkerAgrees(c: Config, db: Db, p: Worker, r: nat)
    requires r in db.runs && db.runs[r].deployment in c.deployments
  {
    var row, st := db.runs[r], StageOf(LogOf(db, r));
    && p.run == r
    && |st.pauses| == |row.approved|
    && (p.Claimed? || p.Marked? ==> row.status == RUNNING && st.kind.Ready? && p.approved == row.approved)
    && (p.Announced? || p.Executing? || p.Pausing? ==> row.status == RUNNING && st.kind.Live? && p.approved == row.approved)
    && (p.Executing? ==> GateOf(c, r, row, row.approved).Open? && !c.deployments[row.deployment].runtime.Unsupported?)
    && (p.PauseWritten? ==> row.status == REVIEW && st.kind.Live?)
    && (p.BlockWritten? ==> row.status == BLOCKED && st.kind.Live?)
    && (p.EndWritten? ==> row.status == (if p.ok then COMPLETED else FAILED) && st.kind.Live?)
    && (p.HandOverWritten? ==> row.status == RUNNING && st.kind.Live?)
    && (p.Pausing? || p.PauseWritten? ==>
          && ReviewIs(db, p.mark, r, Waiting)
          && Opens(c, row, p.mark)
          && forall i :: 0 <= i < |st.pauses| ==> st.pauses[i].review != p.mark.review)
  }

  // The run as its reviewer left it.
  ghost predicate ReviewerAgrees(c: Config, db: Db, p: Reviewer, r: nat)
    requires r in db.runs && db.runs[r].deployment in c.deployments
  {
    var row, st := db.runs[r], StageOf(LogOf(db, r));
    && p.run == r
    && !p.Requeued?
    && |st.pauses| == |row.approved| + 1
    && st.kind.Ready?
    && LastPause(st, p.mark)
    && Opens(c, row, p.mark)
    && (p.Resolved? ==> row.status == REVIEW && ReviewIs(db, p.mark, r, if p.approve then Accepted else Refused))
    && (p.RunRead? ==> row.status == REVIEW && ReviewIs(db, p.mark, r, Accepted) && p.approved == row.approved)
    && (p.DenialWritten? ==> row.status == BLOCKED && ReviewIs(db, p.mark, r, Refused))
  }

  // The run when nobody has it in hand.
  ghost predicate RestsWell(c: Config, db: Db, r: nat)
    requires r in db.runs && db.runs[r].deployment in c.deployments
  {
    var row, st := db.runs[r], StageOf(LogOf(db, r));
    match row.status
    case QUEUED => st.kind.Ready? && |st.pauses| == |row.approved|
    case REVIEW =>
      && st.kind.Ready?
      && |st.pauses| == |row.approved| + 1
      && ReviewIs(db, st.pauses[|row.approved|], r, Waiting)
      && Opens(c, row, st.pauses[|row.approved|])
    case BLOCKED =>
      && st.kind == Closed(BLOCKED)
      && (|st.pauses| == |row.approved| + 1 ==> ReviewIs(db, st.pauses[|row.approved|], r, Refused))
      && |row.approved| <= |st.pauses| <= |row.approved| + 1
    case PENDING => false
    case CANCELLED => false
    case _ => st.kind == Closed(row.status) && |st.pauses| == |row.approved|
  }

  // The row of a run: what its columns, its approvals and the claim counter say.
  ghost predicate RowOk(c: Config, db: Db, claims: map<nat, nat>, r: nat)
    requires r in db.runs
  {
    var row, st := db.runs[r], StageOf(LogOf(db, r));
    && row.deployment in c.deployments
    && r in claims
    && claims[r] + (if row.status == QUEUED then 1 else 0) == 1 + |row.approved|
    && (row.completed <==> Terminal(row.status))
    && (row.started <==> claims[r] > 0)
    && NoDuplicates(row.approved)
    && (forall h :: h in row.approved ==> h in HookIds(c.deployments[row.deployment]))
    && |row.approved| <= |st.pauses|
    && DistinctReviews(st.pauses)
    && (forall i :: 0 <= i < |st.pauses| ==> st.pauses[i].review in db.reviews && db.reviews[st.pauses[i].review].run == r)
    && (forall i :: 0 <= i < |row.approved| ==> st.pauses[i].hook == row.approved[i] && ReviewIs(db, st.pauses[i], r, Accepted))
  }

  ghost predicate InHand(c: Config, s: State, r: nat)
    requires r in s.db.runs && s.db.runs[r].deployment in c.deployments
  {
    r in s.charge
    && match s.charge[r]
       case Nobody => RestsWell(c, s.db, r)
       case ByWorker(w) => w in s.workers && WorkerAgrees(c, s.db, s.workers[w], r)
       case ByReviewer(v) => v in s.reviewers && ReviewerAgrees(c, s.db, s.reviewers[v], r)
  }

  // Approvals are announced after their pause, once, and all but the owed ones are.
  ghost predicate LogOk(s: State, r: nat)
    requires r in s.db.runs
  {
    var log, row := LogOf(s.db, r), s.db.runs[r];
    var ps := StageOf(log).pauses;
    && |row.approved| <= |ps|
    && ApprovalsMatched(log)
    && (forall i :: 0 <= i < |row.approved| ==> (Approved(ps[i]) in log <==> ps[i].review !in s.owed))
    && (forall m :: Approved(m) in log ==> m in ps[..|row.approved|])
    && (forall m :: Denied(m) in log ==> m !in ps[..|row.approved|] && m in ps)
  }

  // Only the worker in charge is on the run.
  ghost predicate WorkersOf(s: State, r: nat) {
    forall w :: w in s.workers && s.workers[w].run == r ==> r in s.charge && s.charge[r] == ByWorker(w)
  }

  // Only the reviewer in charge is on the run, and those that still owe an announcement.
  ghost predicate ReviewersOf(s: State, r: nat)
    requires r in s.db.runs
  {
    var ps := StageOf(LogOf(s.db, r)).pauses;
    forall v :: v in s.reviewers && s.reviewers[v].run == r ==>
      var p := s.reviewers[v];
      if p.Requeued? then
        && p.mark.review in s.owed && s.owed[p.mark.review] == v
        && exists i :: 0 <= i < |s.db.runs[r].approved| && i < |ps| && ps[i] == p.mark
      else r in s.charge && s.charge[r] == ByReviewer(v)
  }

  ghost predicate OwedOf(s: State, r: nat) {
    forall id :: id in s.owed && id in s.db.reviews && s.db.reviews[id].run == r ==>
      && s.owed[id] in s.reviewers
      && var p := s.reviewers[s.owed[id]];
         p.Requeued? && p.mark.review == id && p.run == r
  }

  ghost predicate AboutToAnnounce(s: State, r: nat, m: Mark) {
    && r in s.charge && s.charge[r].ByWorker? && s.charge[r].worker in s.workers
    && var p := s.workers[s.charge[r].worker];
       (p.Pausing? || p.PauseWritten?) && p.run == r && p.mark == m
  }

  // Every review item of the run is one of its pauses, or its worker is about to
  // announce it.
  ghost predicate ReviewsOf(s: State, r: nat) {
    var ps := StageOf(LogOf(s.db, r)).pauses;
    forall id :: id in s.db.reviews && s.db.reviews[id].run == r ==>
      || Mark(id, s.db.reviews[id].hook) in ps
      || AboutToAnnounce(s, r, Mark(id, s.db.reviews[id].hook))
  }

  ghost predicate RunOk(c: Config, s: State, r: nat)
    requires r in s.db.runs
  {
    && RowOk(c, s.db, s.claims, r)
    && InHand(c, s, r)
    && LogOk(s, r)
    && WorkersOf(s, r)
    && ReviewersOf(s, r)
    && OwedOf(s, r)
    && ReviewsOf(s, r)
  }

  // Everything in the state belongs to an existing run.
  ghost predicate Homes(c: Config, s: State) {
    && (forall w :: w in s.workers ==> s.workers[w].run in s.db.runs)
    && (forall v :: v in s.reviewers ==> s.reviewers[v].run in s.db.runs)
    && (forall id :: id in s.db.reviews ==> s.db.reviews[id].run in s.db.runs)
    && (forall id :: id in s.owed ==> id in s.db.reviews)
    && (forall u :: u in s.submits ==> s.submits[u].deployment in c.deployments)
    && (forall r :: r in s.db.outbox ==> r in s.db.runs)
    && (forall r :: r in s.claims ==> r in s.db.runs)
  }

  ghost predicate Inv(c: Config, s: State) {
    && Homes(c, s)
    && forall r :: r in s.db.runs ==> RunOk(c, s, r)
  }

  lemma InitialInv(c: Config)
    ensures Inv(c, INITIAL)
  {
  }

  // --- Frames: a step on one run leaves the others alone --------------------

  ghost predicate SameRun(s: State, s': State, q: nat) {
    && q in s.db.runs && q in s'.db.runs && s'.db.runs[q] == s.db.runs[q]
    && LogOf(s'.db, q) == LogOf(s.db, q)
    && (q in s.charge <==> q in s'.charge) && (q in s.charge ==> s.charge[q] == s'.charge[q])
    && (q in s.claims <==> q in s'.claims) && (q in s.claims ==> s.claims[q] == s'.claims[q])
  }

  ghost predicate SameActors(s: State, s': State, q: nat) {
    && (forall w :: w in s.workers && s.workers[w].run == q ==> w in s'.workers && s'.workers[w] == s.workers[w])
    && (forall w :: w in s'.workers && s'.workers[w].run == q ==> w in s.workers && s.workers[w] == s'.workers[w])
    && (forall v :: v in s.reviewers && s.reviewers[v].run == q ==> v in s'.reviewers && s'.reviewers[v] == s.reviewers[v])
    && (forall v :: v in s'.reviewers && s'.reviewers[v].run == q ==> v in s.reviewers && s.reviewers[v] == s'.reviewers[v])
  }

  ghost predicate SameReviews(s: State, s': State, q: nat) {
    && (forall id :: id in s.db.reviews && s.db.reviews[id].run == q ==> id in s'.db.reviews && s'.db.reviews[id] == s.db.reviews[id])
    && (forall id :: id in s'.db.reviews && s'.db.reviews[id].run == q ==> id in s.db.reviews && s.db.reviews[id] == s'.db.reviews[id])
    && (forall id :: id in s.db.reviews && s.db.reviews[id].run == q ==>
          (id in s.owed <==> id in s'.owed) && (id in s.owed ==> s.owed[id] == s'.owed[id]))
  }

  lemma RowFrame(c: Config, s: State, s': State, q: nat)
    requires q in s.db.runs && RowOk(c, s.db, s.claims, q)
    requires SameRun(s, s', q) && SameReviews(s, s', q)
    ensures RowOk(c, s'.db, s'.claims, q)
  {
  }

  lemma HandFrame(c: Config, s: State, s': State, q: nat)
    requires q in s.db.runs && RowOk(c, s.db, s.claims, q) && InHand(c, s, q)
    requires SameRun(s, s', q) && SameActors(s, s', q) && SameReviews(s, s', q)
    ensures InHand(c, s', q)
  {
    match s.charge[q]
    case Nobody =>
      assert RestsWell(c, s'.db, q);
    case ByWorker(w) =>
      assert WorkerAgrees(c, s'.db, s'.workers[w], q);
    case ByReviewer(v) =>
      assert ReviewerAgrees(c, s'.db, s'.reviewers[v], q);
  }

  lemma LogFrame(c: Config, s: State, s': State, q: nat)
    requires q in s.db.runs && RowOk(c, s.db, s.claims, q) && LogOk(s, q)
    requires SameRun(s, s', q) && SameReviews(s, s', q)
    ensures LogOk(s', q)
  {
    var ps := StageOf(LogOf(s.db, q)).pauses;
    forall i | 0 <= i < |s.db.runs[q].approved|
      ensures Approved(ps[i]) in LogOf(s.db, q) <==> ps[i].review !in s'.owed
    {
      assert ps[i].review in s.db.reviews && s.db.reviews[ps[i].review].run == q;
    }
  }

  lemma ReviewersFrame(s: State, s': State, q: nat)
    requires q in s.db.runs && ReviewersOf(s, q) && OwedOf(s, q)
    requires SameRun(s, s', q) && SameActors(s, s', q) && SameReviews(s, s', q)
    requires forall i :: 0 <= i < |StageOf(LogOf(s.db, q)).pauses| ==>
               var id := StageOf(LogOf(s.db, q)).pauses[i].review;
               id in s.db.reviews && s.db.reviews[id].run == q
    ensures ReviewersOf(s', q)
    ensures OwedOf(s', q)
  {
  }

  lemma ReviewsFrame(s: State, s': State, q: nat)
    requires q in s.db.runs && ReviewsOf(s, q) && WorkersOf(s, q)
    requires SameRun(s, s', q) && SameActors(s, s', q) && SameReviews(s, s', q)
    ensures ReviewsOf(s', q)
    ensures WorkersOf(s', q)
  {
  }

  lemma RunFrame(c: Config, s: State, s': State, q: nat)
    requires q in s.db.runs && RunOk(c, s, q)
    requires SameRun(s, s', q) && SameActors(s, s', q) && SameReviews(s, s', q)
    ensures RunOk(c, s', q)
  {
    RowFrame(c, s, s', q);
    HandFrame(c, s, s', q);
    LogFrame(c, s, s', q);
    ReviewersFrame(s, s', q);
    ReviewsFrame(s, s', q);
  }
}
