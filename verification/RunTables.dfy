// The tables of durable runs and the store transactions on them
// (intelliguard/persistence/store.py:948-1109, 2527-2556, 2700-2708).
module RunTables {
  import opened Outcomes
  import opened RunLog

  // status, the approved_hook_ids of input_payload, and whether started_at and
  // completed_at are set.
  datatype RunRow = RunRow(
    deployment: string,
    key: Option<string>,
    query: string,
    status: RunStatus,
    approved: seq<string>,
    started: bool,
    completed: bool)

  // PENDING, APPROVED and DENIED of the review queue.
  datatype ReviewState = Waiting | Accepted | Refused

  datatype ReviewRow = ReviewRow(run: nat, hook: string, state: ReviewState)

  // The outbox is kept per run: every reader filters it by run.
  datatype Db = Db(runs: map<nat, RunRow>, reviews: map<nat, ReviewRow>, outbox: map<nat, seq<Event>>)

  function LogOf(db: Db, r: nat): seq<Event> {
    if r in db.outbox then db.outbox[r] else []
  }

  // The status branch of update_workflow_runtime_run.
  function WithStatus(row: RunRow, status: RunStatus): RunRow {
    row.(status := status,
         started := row.started || status == RUNNING,
         completed := row.completed || Terminal(status))
  }

  function SetStatus(db: Db, r: nat, status: RunStatus): Db
    requires r in db.runs
  {
    db.(runs := db.runs[r := WithStatus(db.runs[r], status)])
  }

  // claim_next_queued_runtime_run, for the row it locked.
  function ClaimRun(db: Db, r: nat): Db
    requires r in db.runs
  {
    db.(runs := db.runs[r := db.runs[r].(status := RUNNING, started := true)])
  }

  // The update of _approve: the whole input_payload is written back.
  function RequeueRun(db: Db, r: nat, approved: seq<string>): Db
    requires r in db.runs
  {
    db.(runs := db.runs[r := WithStatus(db.runs[r], QUEUED).(approved := approved, completed := false)])
  }

  function CreateRun(db: Db, r: nat, deployment: string, key: Option<string>, query: string): Db {
    db.(runs := db.runs[r := RunRow(deployment, key, query, QUEUED, [], false, false)])
  }

  function AddReview(db: Db, id: nat, r: nat, hook: string): Db {
    db.(reviews := db.reviews[id := ReviewRow(r, hook, Waiting)])
  }

  function ResolveReview(db: Db, id: nat, state: ReviewState): Db
    requires id in db.reviews
  {
    db.(reviews := db.reviews[id := db.reviews[id].(state := state)])
  }

  function AppendEvent(db: Db, r: nat, e: Event): Db {
    db.(outbox := db.outbox[r := LogOf(db, r) + [e]])
  }

  // _approve adds the hook once.
  function WithHook(approved: seq<string>, hook: string): seq<string> {
    if hook in approved then approved else approved + [hook]
  }

  predicate KeyTaken(db: Db, deployment: string, key: Option<string>) {
    exists r | r in db.runs :: db.runs[r].deployment == deployment && db.runs[r].key == key
  }
}
