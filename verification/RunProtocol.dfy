// Submitters, workers and reviewers interleaved over the run tables, one step
// for each store transaction (runtime/dispatcher.py:95-141,
// workers/runtime.py:37-170, runtime/hooks.py:88-359, api/main.py:1408-1423).
module RunProtocol {
  import opened Outcomes
  import opened RunLog
  import opened RunTables
  import Hooks = RuntimeHooks

  datatype Runtime = Native | Temporal | Unsupported

  datatype Deployment = Deployment(definitionId: string, environment: string, runtime: Runtime, hooks: seq<Hooks.Hook>)

  // The deployments never change while runs are processed. `indexed` says whether
  // the unique index of migration 0003 on (deployment_id, idempotency_key) exists.
  datatype Config = Config(deployments: map<string, Deployment>, indexed: bool)

  // A request of a worker in flight, after the store transaction it is named by.
  datatype Worker =
    | Claimed(run: nat, approved: seq<string>)
    | Marked(run: nat, approved: seq<string>)
    | Announced(run: nat, approved: seq<string>)
    | Executing(run: nat, approved: seq<string>)
    | Pausing(run: nat, approved: seq<string>, mark: Mark)
    | PauseWritten(run: nat, mark: Mark)
    | BlockWritten(run: nat, hook: string)
    | EndWritten(run: nat, ok: bool)
    | HandOverWritten(run: nat)

  // A resolve request in flight.
  datatype Reviewer =
    | Resolved(run: nat, mark: Mark, approve: bool)
    | RunRead(run: nat, mark: Mark, approved: seq<string>)
    | Requeued(run: nat, mark: Mark)
    | DenialWritten(run: nat, mark: Mark)

  // A submit request in flight: the dispatcher's lookup, then the lookup inside create.
  datatype Submit =
    | LookedUp(deployment: string, key: Option<string>, query: string)
    | Selected(deployment: string, key: Option<string>, query: string)

  datatype Receipt = Receipt(deployment: string, key: Option<string>, run: nat)

  // Who has the run in hand.
  datatype Actor = Nobody | ByWorker(worker: nat) | ByReviewer(reviewer: nat)

  // charge, owed, claims and receipts are history: no step of the code reads them.
  datatype State = State(
    db: Db,
    workers: map<nat, Worker>,
    reviewers: map<nat, Reviewer>,
    submits: map<nat, Submit>,
    charge: map<nat, Actor>,    // per run
    owed: map<nat, nat>,        // per review approved but not announced: its reviewer
    claims: map<nat, nat>,      // per run: how often it was claimed
    receipts: seq<Receipt>)     // runs that submits returned

  const INITIAL := State(Db(map[], map[], map[]), map[], map[], map[], map[], map[], map[], [])

  datatype Label =
    | Lookup(submit: nat, deployment: string, key: Option<string>, query: string, found: Option<nat>)
    | SelectKey(submit: nat, found: Option<nat>)
    | Insert(submit: nat, run: nat)
    | Claim(worker: nat, run: nat)
    | MarkRunning(worker: nat)
    | AnnounceStart(worker: nat)
    | OpenReview(worker: nat, review: nat)
    | WritePause(worker: nat)
    | AnnouncePause(worker: nat)
    | WriteBlock(worker: nat)
    | AnnounceBlock(worker: nat)
    | Execute(worker: nat)
    | WriteEnd(worker: nat, ok: bool)
    | AnnounceEnd(worker: nat)
    | WriteHandOver(worker: nat)
    | AnnounceHandOver(worker: nat)
    | Resolve(reviewer: nat, review: nat, approve: bool)
    | ReadRun(reviewer: nat)
    | Requeue(reviewer: nat)
    | AnnounceApproval(reviewer: nat)
    | WriteDenial(reviewer: nat)
    | AnnounceDenial(reviewer: nat)

  function ContextOf(c: Config, r: nat, row: RunRow, approved: seq<string>): Hooks.Context
    requires row.deployment in c.deployments
  {
    var d := c.deployments[row.deployment];
    Hooks.Context(r, row.deployment, d.definitionId, d.environment, Hooks.BEFORE_WORKFLOW, row.query, approved)
  }

  function GateOf(c: Config, r: nat, row: RunRow, approved: seq<string>): Hooks.Gate
    requires row.deployment in c.deployments
  {
    Hooks.Evaluate(c.deployments[row.deployment].hooks, ContextOf(c, r, row, approved))
  }

  function HookIds(d: Deployment): set<string> {
    set h | h in d.hooks :: h.id
  }

  // What a lookup by key may return: a row with that key, or nothing if there is none.
  predicate Finds(db: Db, deployment: string, key: Option<string>, found: Option<nat>) {
    match found
    case Some(r) =>
      && key.Some? && key.value != ""
      && r in db.runs && db.runs[r].deployment == deployment && db.runs[r].key == key
    case None => key == None || key == Some("") || !KeyTaken(db, deployment, key)
  }

  // --- Steps --------------------------------------------------------------

  // An active run makes the submit fail; a finished one is returned.
  function SubmitLookup(c: Config, s: State, u: nat, d: string, k: Option<string>, q: string, found: Option<nat>): Option<State> {
    if u in s.submits || d !in c.deployments || !Finds(s.db, d, k, found) then None
    else if found.None? then Some(s.(submits := s.submits[u := LookedUp(d, k, q)]))
    else if Active(s.db.runs[found.value].status) then Some(s)
    else Some(s.(receipts := s.receipts + [Receipt(d, k, found.value)]))
  }

  function SubmitSelect(s: State, u: nat, found: Option<nat>): Option<State> {
    if u !in s.submits || !s.submits[u].LookedUp? then None
    else
      var LookedUp(d, k, q) := s.submits[u];
      if !Finds(s.db, d, k, found) then None
      else if found.None? then Some(s.(submits := s.submits[u := Selected(d, k, q)]))
      else Some(s.(submits := s.submits - {u}, receipts := s.receipts + [Receipt(d, k, found.value)]))
  }

  // With the unique index an insert of a taken key (the empty key included) fails.
  function SubmitInsert(c: Config, s: State, u: nat, r: nat): Option<State> {
    if u !in s.submits || !s.submits[u].Selected? || r in s.db.runs || r in s.db.outbox then None
    else
      var Selected(d, k, q) := s.submits[u];
      if c.indexed && k.Some? && KeyTaken(s.db, d, k) then Some(s.(submits := s.submits - {u}))
      else Some(s.(db := CreateRun(s.db, r, d, k, q),
                   submits := s.submits - {u},
                   charge := s.charge[r := Nobody],
                   claims := s.claims[r := 0],
                   receipts := s.receipts + [Receipt(d, k, r)]))
  }

  function WorkerClaims(s: State, w: nat, r: nat): Option<State> {
    if w in s.workers || r !in s.db.runs || s.db.runs[r].status != QUEUED || r !in s.claims then None
    else Some(s.(db := ClaimRun(s.db, r),
                 workers := s.workers[w := Claimed(r, s.db.runs[r].approved)],
                 charge := s.charge[r := ByWorker(w)],
                 claims := s.claims[r := s.claims[r] + 1]))
  }

  predicate At(s: State, w: nat) {
    w in s.workers && s.workers[w].run in s.db.runs
  }

  function WorkerMarks(c: Config, s: State, w: nat): Option<State> {
    if !At(s, w) || !s.workers[w].Claimed? || s.db.runs[s.workers[w].run].deployment !in c.deployments then None
    else
      var Claimed(r, a) := s.workers[w];
      Some(s.(db := SetStatus(s.db, r, RUNNING), workers := s.workers[w := Marked(r, a)]))
  }

  function WorkerAnnouncesStart(s: State, w: nat): Option<State> {
    if !At(s, w) || !s.workers[w].Marked? then None
    else
      var Marked(r, a) := s.workers[w];
      Some(s.(db := AppendEvent(s.db, r, Started), workers := s.workers[w := Announced(r, a)]))
  }

  // The gate is evaluated on the approved ids of the claimed work item.
  function GateAt(c: Config, s: State, w: nat): Option<Hooks.Gate> {
    if At(s, w) && s.workers[w].Announced? && s.db.runs[s.workers[w].run].deployment in c.deployments then
      Some(GateOf(c, s.workers[w].run, s.db.runs[s.workers[w].run], s.workers[w].approved))
    else None
  }

  function WorkerOpensReview(c: Config, s: State, w: nat, id: nat): Option<State> {
    var g := GateAt(c, s, w);
    if g.None? || !g.value.Pause? || id in s.db.reviews then None
    else
      var Announced(r, a) := s.workers[w];
      Some(s.(db := AddReview(s.db, id, r, g.value.hook.id),
              workers := s.workers[w := Pausing(r, a, Mark(id, g.value.hook.id))]))
  }

  function WorkerWritesPause(s: State, w: nat): Option<State> {
    if !At(s, w) || !s.workers[w].Pausing? then None
    else
      var Pausing(r, _, m) := s.workers[w];
      Some(s.(db := SetStatus(s.db, r, REVIEW), workers := s.workers[w := PauseWritten(r, m)]))
  }

  // The last event of a request, after which nobody has the run in hand.
  function Leaves(s: State, w: nat, e: Event): State
    requires At(s, w)
  {
    var r := s.workers[w].run;
    s.(db := AppendEvent(s.db, r, e), workers := s.workers - {w}, charge := s.charge[r := Nobody])
  }

  function WorkerAnnouncesPause(s: State, w: nat): Option<State> {
    if !At(s, w) || !s.workers[w].PauseWritten? then None
    else Some(Leaves(s, w, Paused(s.workers[w].mark)))
  }

  function WorkerWritesBlock(c: Config, s: State, w: nat): Option<State> {
    var g := GateAt(c, s, w);
    if g.None? || !g.value.Stop? then None
    else
      var Announced(r, _) := s.workers[w];
      Some(s.(db := SetStatus(s.db, r, BLOCKED), workers := s.workers[w := BlockWritten(r, g.value.hook.id)]))
  }

  function WorkerAnnouncesBlock(s: State, w: nat): Option<State> {
    if !At(s, w) || !s.workers[w].BlockWritten? then None
    else Some(Leaves(s, w, HookBlocked(s.workers[w].hook)))
  }

  // The gate is open: the runner executes, or Temporal is asked to.
  function WorkerExecutes(c: Config, s: State, w: nat): Option<State> {
    var g := GateAt(c, s, w);
    if g.None? || !g.value.Open? then None
    else
      var Announced(r, a) := s.workers[w];
      if c.deployments[s.db.runs[r].deployment].runtime == Unsupported then None
      else Some(s.(workers := s.workers[w := Executing(r, a)]))
  }

  predicate ExecutingOn(c: Config, s: State, w: nat, runtime: Runtime) {
    && At(s, w) && s.workers[w].Executing?
    && s.db.runs[s.workers[w].run].deployment in c.deployments
    && c.deployments[s.db.runs[s.workers[w].run].deployment].runtime == runtime
  }

  // A native run completes or fails; a Temporal start may fail.
  function WorkerWritesEnd(c: Config, s: State, w: nat, ok: bool): Option<State> {
    if !ExecutingOn(c, s, w, Native) && !(ExecutingOn(c, s, w, Temporal) && !ok) then None
    else
      var r := s.workers[w].run;
      Some(s.(db := SetStatus(s.db, r, if ok then COMPLETED else FAILED), workers := s.workers[w := EndWritten(r, ok)]))
  }

  function WorkerAnnouncesEnd(s: State, w: nat): Option<State> {
    if !At(s, w) || !s.workers[w].EndWritten? then None
    else Some(Leaves(s, w, Finished(s.workers[w].ok)))
  }

  function WorkerWritesHandOver(c: Config, s: State, w: nat): Option<State> {
    if !ExecutingOn(c, s, w, Temporal) then None
    else
      var r := s.workers[w].run;
      Some(s.(db := SetStatus(s.db, r, RUNNING), workers := s.workers[w := HandOverWritten(r)]))
  }

  function WorkerAnnouncesHandOver(s: State, w: nat): Option<State> {
    if !At(s, w) || !s.workers[w].HandOverWritten? then None
    else Some(Leaves(s, w, TemporalStarted))
  }

  // resolve_review_item checks neither the review's status nor the run's.
  function ReviewerResolves(s: State, v: nat, id: nat, approve: bool): Option<State> {
    if v in s.reviewers || id !in s.db.reviews then None
    else
      var ReviewRow(r, h, _) := s.db.reviews[id];
      Some(s.(db := ResolveReview(s.db, id, if approve then Accepted else Refused),
              reviewers := s.reviewers[v := Resolved(r, Mark(id, h), approve)],
              charge := s.charge[r := ByReviewer(v)]))
  }

  predicate Reviews(s: State, v: nat) {
    v in s.reviewers && s.reviewers[v].run in s.db.runs
  }

  function ReviewerReadsRun(s: State, v: nat): Option<State> {
    if !Reviews(s, v) || !s.reviewers[v].Resolved? || !s.reviewers[v].approve then None
    else
      var Resolved(r, m, _) := s.reviewers[v];
      Some(s.(reviewers := s.reviewers[v := RunRead(r, m, s.db.runs[r].approved)]))
  }

  function ReviewerRequeues(s: State, v: nat): Option<State> {
    if !Reviews(s, v) || !s.reviewers[v].RunRead? then None
    else
      var RunRead(r, m, a) := s.reviewers[v];
      Some(s.(db := RequeueRun(s.db, r, WithHook(a, m.hook)),
              reviewers := s.reviewers[v := Requeued(r, m)],
              charge := s.charge[r := Nobody],
              owed := s.owed[m.review := v]))
  }

  function ReviewerAnnouncesApproval(s: State, v: nat): Option<State> {
    if !Reviews(s, v) || !s.reviewers[v].Requeued? then None
    else
      var Requeued(r, m) := s.reviewers[v];
      Some(s.(db := AppendEvent(s.db, r, Approved(m)), reviewers := s.reviewers - {v}, owed := s.owed - {m.review}))
  }

  function ReviewerWritesDenial(s: State, v: nat): Option<State> {
    if !Reviews(s, v) || !s.reviewers[v].Resolved? || s.reviewers[v].approve then None
    else
      var Resolved(r, m, _) := s.reviewers[v];
      Some(s.(db := SetStatus(s.db, r, BLOCKED), reviewers := s.reviewers[v := DenialWritten(r, m)]))
  }

  function ReviewerAnnouncesDenial(s: State, v: nat): Option<State> {
    if !Reviews(s, v) || !s.reviewers[v].DenialWritten? then None
    else
      var DenialWritten(r, m) := s.reviewers[v];
      Some(s.(db := AppendEvent(s.db, r, Denied(m)), reviewers := s.reviewers - {v}, charge := s.charge[r := Nobody]))
  }

  function Step(c: Config, s: State, l: Label): Option<State> {
    match l
    case Lookup(u, d, k, q, found) => SubmitLookup(c, s, u, d, k, q, found)
    case SelectKey(u, found) => SubmitSelect(s, u, found)
    case Insert(u, r) => SubmitInsert(c, s, u, r)
    case Claim(w, r) => WorkerClaims(s, w, r)
    case MarkRunning(w) => WorkerMarks(c, s, w)
    case AnnounceStart(w) => WorkerAnnouncesStart(s, w)
    case OpenReview(w, id) => WorkerOpensReview(c, s, w, id)
    case WritePause(w) => WorkerWritesPause(s, w)
    case AnnouncePause(w) => WorkerAnnouncesPause(s, w)
    case WriteBlock(w) => WorkerWritesBlock(c, s, w)
    case AnnounceBlock(w) => WorkerAnnouncesBlock(s, w)
    case Execute(w) => WorkerExecutes(c, s, w)
    case WriteEnd(w, ok) => WorkerWritesEnd(c, s, w, ok)
    case AnnounceEnd(w) => WorkerAnnouncesEnd(s, w)
    case WriteHandOver(w) => WorkerWritesHandOver(c, s, w)
    case AnnounceHandOver(w) => WorkerAnnouncesHandOver(s, w)
    case Resolve(v, id, approve) => ReviewerResolves(s, v, id, approve)
    case ReadRun(v) => ReviewerReadsRun(s, v)
    case Requeue(v) => ReviewerRequeues(s, v)
    case AnnounceApproval(v) => ReviewerAnnouncesApproval(s, v)
    case WriteDenial(v) => ReviewerWritesDenial(s, v)
    case AnnounceDenial(v) => ReviewerAnnouncesDenial(s, v)
  }

  // Kinds of steps.
  predicate OfSubmit(l: Label) {
    l.Lookup? || l.SelectKey? || l.Insert?
  }

  predicate OfReview(l: Label) {
    l.Resolve? || l.ReadRun? || l.Requeue? || l.AnnounceApproval? || l.WriteDenial? || l.AnnounceDenial?
  }

  predicate OfAnnouncement(l: Label) {
    l.AnnounceStart? || l.AnnouncePause? || l.AnnounceBlock? || l.AnnounceEnd? || l.AnnounceHandOver?
  }

  function WorkerRun(s: State, w: nat): Option<nat> {
    if w in s.workers then Some(s.workers[w].run) else None
  }

  function ReviewerRun(s: State, v: nat): Option<nat> {
    if v in s.reviewers then Some(s.reviewers[v].run) else None
  }

  // The run a step is on; submits are on no run yet.
  function RunOf(s: State, l: Label): Option<nat> {
    match l
    case Lookup(_, _, _, _, _) => None
    case SelectKey(_, _) => None
    case Insert(_, _) => None
    case Claim(_, r) => Some(r)
    case Resolve(_, id, _) => if id in s.db.reviews then Some(s.db.reviews[id].run) else None
    case ReadRun(v) => ReviewerRun(s, v)
    case Requeue(v) => ReviewerRun(s, v)
    case AnnounceApproval(v) => ReviewerRun(s, v)
    case WriteDenial(v) => ReviewerRun(s, v)
    case AnnounceDenial(v) => ReviewerRun(s, v)
    case MarkRunning(w) => WorkerRun(s, w)
    case AnnounceStart(w) => WorkerRun(s, w)
    case OpenReview(w, _) => WorkerRun(s, w)
    case WritePause(w) => WorkerRun(s, w)
    case AnnouncePause(w) => WorkerRun(s, w)
    case WriteBlock(w) => WorkerRun(s, w)
    case AnnounceBlock(w) => WorkerRun(s, w)
    case Execute(w) => WorkerRun(s, w)
    case WriteEnd(w, _) => WorkerRun(s, w)
    case AnnounceEnd(w) => WorkerRun(s, w)
    case WriteHandOver(w) => WorkerRun(s, w)
    case AnnounceHandOver(w) => WorkerRun(s, w)
  }

  // --- Disciplines and executions -----------------------------------------

  // A review can be resolved safely: it waits, and the worker that opened it has
  // announced the pause.
  predicate Resolvable(db: Db, id: nat) {
    && id in db.reviews
    && db.reviews[id].state == Waiting
    && Paused(Mark(id, db.reviews[id].hook)) in LogOf(db, db.reviews[id].run)
  }

  // Reviewers resolve only resolvable reviews.
  predicate Careful(s: State, l: Label) {
    l.Resolve? ==> Resolvable(s.db, l.review)
  }

  // A review of the run is approved in the review queue, and its log does not say so.
  predicate Untold(db: Db, r: nat) {
    exists id | id in db.reviews ::
      && db.reviews[id].run == r && db.reviews[id].state == Accepted
      && Approved(Mark(id, db.reviews[id].hook)) !in LogOf(db, r)
  }

  // Workers announce a start only after the approvals of the run are announced.
  predicate Patient(s: State, l: Label) {
    l.AnnounceStart? && At(s, l.worker) ==> !Untold(s.db, s.workers[l.worker].run)
  }

  ghost predicate Legal(c: Config, s: State, ls: seq<Label>, patient: bool)
    decreases |ls|
  {
    |ls| == 0
    || (&& Step(c, s, ls[0]).Some?
        && Careful(s, ls[0])
        && (patient ==> Patient(s, ls[0]))
        && Legal(c, Step(c, s, ls[0]).value, ls[1..], patient))
  }

  // The state after the labels, as long as they can be taken.
  function After(c: Config, s: State, ls: seq<Label>): Option<State>
    decreases |ls|
  {
    if |ls| == 0 then Some(s)
    else if Step(c, s, ls[0]).None? then None
    else After(c, Step(c, s, ls[0]).value, ls[1..])
  }

  // The states an execution goes through.
  ghost predicate Chain(c: Config, ss: seq<State>, ls: seq<Label>) {
    |ss| == |ls| + 1 && forall i :: 0 <= i < |ls| ==> Step(c, ss[i], ls[i]) == Some(ss[i + 1])
  }

  lemma {:induction false} ChainAfter(c: Config, ss: seq<State>, ls: seq<Label>)
    requires Chain(c, ss, ls)
    ensures After(c, ss[0], ls) == Some(ss[|ls|])
    decreases |ls|
  {
    if |ls| > 0 {
      ChainAfter(c, ss[1..], ls[1..]);
    }
  }

  lemma {:induction false} ChainLegal(c: Config, ss: seq<State>, ls: seq<Label>)
    requires Chain(c, ss, ls) && forall i :: 0 <= i < |ls| ==> Careful(ss[i], ls[i])
    ensures Legal(c, ss[0], ls, false)
    decreases |ls|
  {
    if |ls| > 0 {
      ChainLegal(c, ss[1..], ls[1..]);
    }
  }
}
