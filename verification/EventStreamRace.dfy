// An execution of the run protocol in which the event stream ends without the last event:
// the status of a run is written before its last event is (workers/runtime.py:104-121,
// api/main.py:1336-1346).
module EventStreamRace {
  import opened Outcomes
  import opened RunLog
  import opened RunTables
  import opened RunProtocol
  import opened RunRaces
  import Events = EventStream

  // The types of the outbox events.
  function TypeOf(e: Event): string {
    match e
    case Started => "run.started"
    case Paused(_) => "hook.paused"
    case Approved(_) => "hook.approved"
    case Denied(_) => "hook.denied"
    case HookBlocked(_) => "hook.blocked"
    case Finished(ok) => if ok then "run.completed" else "run.failed"
    case TemporalStarted => "run.temporal_started"
  }

  // The rows of a log as the stream sees them.
  function Rows(log: seq<Event>): (rows: seq<Events.Entry>)
    ensures |rows| == |log|
  {
    seq(|log|, i requires 0 <= i < |log| => Events.Entry(i, TypeOf(log[i])))
  }

  // The statuses that end a stream.
  predicate EndsStream(status: RunStatus) {
    status in {COMPLETED, FAILED, BLOCKED, REVIEW}
  }

  // One round of the stream in a state in which nothing happens between its two reads.
  function PollOf(s: State, r: nat): Events.Poll
    requires r in s.db.runs
  {
    Events.Poll(Rows(LogOf(s.db, r)), EndsStream(s.db.runs[r].status))
  }

  const LIMIT := 100

  // The gate of a fresh run is open to a native runner.
  ghost predicate OpensAtOnce(c: Config, d: string, q: string) {
    && d in c.deployments && c.deployments[d].runtime.Native?
    && forall row: RunRow :: row.deployment == d && row.query == q ==> GateOf(c, 1, row, []).Open?
  }

  lemma ExecutesAtOnce(c: Config, s0: State, d: string, q: string, k: Kept) returns (s: State)
    requires Reach(c, s0, k) && Has(s0, d, q, RUNNING, [], [Started]) && OpensAtOnce(c, d, q)
    requires s0.workers == map[1 := Announced(1, [])]
    ensures Reach(c, s, k) && Has(s, d, q, RUNNING, [], [Started]) && s.workers == map[1 := Executing(1, [])]
  {
    hide Reach;
    s := WorkerExecutes(c, s0, 1).value;
    ReachStep(c, s0, Execute(1), s, k);
  }

  lemma WritesEnd(c: Config, s0: State, d: string, q: string, k: Kept) returns (s: State)
    requires Reach(c, s0, k) && Has(s0, d, q, RUNNING, [], [Started]) && OpensAtOnce(c, d, q)
    requires s0.workers == map[1 := Executing(1, [])]
    ensures Reach(c, s, k) && Has(s, d, q, COMPLETED, [], [Started]) && s.workers == map[1 := EndWritten(1, true)]
  {
    hide Reach, GateOf;
    s := WorkerWritesEnd(c, s0, 1, true).value;
    ReachStep(c, s0, WriteEnd(1, true), s, k);
  }

  lemma OnePoll(p: Events.Poll)
    requires p.over && |p.log| <= LIMIT
    ensures Events.Emitted([p], None, LIMIT) == p.log && Events.Made([p]) == [p]
  {
    assert p.log + [] == p.log;
  }

  // Whenever the gate of a fresh run is open: in some execution that keeps all disciplines
  // the status is COMPLETED and the event not yet written. A stream that polls then ends,
  // having emitted the start alone; the next step writes run.completed.
  lemma StreamMissesLastEvent(c: Config, d: string, q: string) returns (s: State, s': State)
    requires OpensAtOnce(c, d, q)
    ensures Reach(c, s, CareAndPatience) && 1 in s.db.runs && s.db.runs[1].status == COMPLETED
    ensures Step(c, s, AnnounceEnd(1)) == Some(s') && 1 in s'.db.runs
    ensures Events.Emitted([PollOf(s, 1)], None, LIMIT) == Rows([Started])
    ensures Events.Made([PollOf(s, 1)]) == [PollOf(s, 1)] && PollOf(s, 1).over
    ensures Rows(LogOf(s'.db, 1)) == Rows([Started, Finished(true)])
  {
    hide Reach, GateOf, Rows;
    var k := CareAndPatience;
    var s0 := Submits(c, d, q, k);
    var s1 := Starts(c, s0, 1, d, q, [], [], k);
    assert [] + [Started] == [Started];
    assert map[][1 := Announced(1, [])] == map[1 := Announced(1, [])];
    var s2 := ExecutesAtOnce(c, s1, d, q, k);
    s := WritesEnd(c, s2, d, q, k);
    s' := WorkerAnnouncesEnd(s, 1).value;
    assert [Started] + [Finished(true)] == [Started, Finished(true)];
    OnePoll(PollOf(s, 1));
  }

  // A deployment without hooks is such a deployment.
  lemma NoHooksOpenAtOnce(c: Config, d: string, q: string)
    requires d in c.deployments && c.deployments[d].runtime.Native? && c.deployments[d].hooks == []
    ensures OpensAtOnce(c, d, q)
  {
  }
}
