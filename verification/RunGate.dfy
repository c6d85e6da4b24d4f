// The gate over every interleaving, with no discipline at all: whatever reviewers and
// workers do, a runner executes a run only past hooks that somebody approved for it.
module RunGate {
  import opened Outcomes
  import opened RunTables
  import opened RunProtocol
  import opened RunConditions
  import opened RunPreservedApproval
  import Hooks = RuntimeHooks

  // One of the labels approves a review of this run for this hook.
  ghost predicate Granted(s: State, ls: seq<Label>, r: nat, hook: string) {
    exists v, id ::
      && Resolve(v, id, true) in ls
      && id in s.db.reviews && s.db.reviews[id].run == r && s.db.reviews[id].hook == hook
  }

  ghost predicate AllGranted(s: State, ls: seq<Label>, r: nat, approved: seq<string>) {
    forall h :: h in approved ==> Granted(s, ls, r, h)
  }

  ghost predicate RunTraced(s: State, ls: seq<Label>, r: nat)
    requires r in s.db.runs
  {
    AllGranted(s, ls, r, s.db.runs[r].approved)
  }

  ghost predicate WorkerTraced(c: Config, s: State, ls: seq<Label>, w: nat)
    requires w in s.workers
  {
    var p := s.workers[w];
    match p
    case Claimed(r, a) => AllGranted(s, ls, r, a)
    case Marked(r, a) => AllGranted(s, ls, r, a)
    case Announced(r, a) => AllGranted(s, ls, r, a)
    case Pausing(r, a, _) => AllGranted(s, ls, r, a)
    case Executing(r, a) =>
      && AllGranted(s, ls, r, a)
      && r in s.db.runs && s.db.runs[r].deployment in c.deployments
      && GateOf(c, r, s.db.runs[r], a).Open?
    case _ => true
  }

  ghost predicate ReviewerTraced(s: State, ls: seq<Label>, v: nat)
    requires v in s.reviewers
  {
    match s.reviewers[v]
    case Resolved(r, m, approve) => approve ==> Granted(s, ls, r, m.hook)
    case RunRead(r, m, a) => Granted(s, ls, r, m.hook) && AllGranted(s, ls, r, a)
    case _ => true
  }

  ghost predicate Traced(c: Config, s: State, ls: seq<Label>) {
    && (forall r :: r in s.db.runs ==> RunTraced(s, ls, r))
    && (forall w :: w in s.workers ==> WorkerTraced(c, s, ls, w))
    && (forall v :: v in s.reviewers ==> ReviewerTraced(s, ls, v))
  }

  // --- What never changes -----------------------------------------------------------

  ghost predicate Grows(s: State, s': State, ls: seq<Label>, ls': seq<Label>) {
    && (forall l :: l in ls ==> l in ls')
    && (forall id :: id in s.db.reviews ==>
          id in s'.db.reviews && s'.db.reviews[id].run == s.db.reviews[id].run && s'.db.reviews[id].hook == s.db.reviews[id].hook)
    && (forall r :: r in s.db.runs ==>
          r in s'.db.runs && s'.db.runs[r].deployment == s.db.runs[r].deployment && s'.db.runs[r].query == s.db.runs[r].query)
  }

  lemma GrantedGrows(s: State, s': State, ls: seq<Label>, ls': seq<Label>, r: nat, hook: string)
    requires Grows(s, s', ls, ls') && Granted(s, ls, r, hook)
    ensures Granted(s', ls', r, hook)
  {
    var v, id :| Resolve(v, id, true) in ls && id in s.db.reviews && s.db.reviews[id].run == r && s.db.reviews[id].hook == hook;
    assert Resolve(v, id, true) in ls';
  }

  lemma AllGrantedGrows(s: State, s': State, ls: seq<Label>, ls': seq<Label>, r: nat, approved: seq<string>)
    requires Grows(s, s', ls, ls') && AllGranted(s, ls, r, approved)
    ensures AllGranted(s', ls', r, approved)
  {
    forall h | h in approved
      ensures Granted(s', ls', r, h)
    {
      GrantedGrows(s, s', ls, ls', r, h);
    }
  }

  lemma RunGrows(s: State, s': State, ls: seq<Label>, ls': seq<Label>, r: nat)
    requires Grows(s, s', ls, ls') && r in s.db.runs && RunTraced(s, ls, r)
    requires r in s'.db.runs && s'.db.runs[r].approved == s.db.runs[r].approved
    ensures RunTraced(s', ls', r)
  {
    AllGrantedGrows(s, s', ls, ls', r, s.db.runs[r].approved);
  }

  lemma WorkerGrows(c: Config, s: State, s': State, ls: seq<Label>, ls': seq<Label>, w: nat)
    requires Grows(s, s', ls, ls') && w in s.workers && WorkerTraced(c, s, ls, w)
    requires w in s'.workers && s'.workers[w] == s.workers[w]
    ensures WorkerTraced(c, s', ls', w)
  {
    match s.workers[w]
    case Claimed(r, a) => AllGrantedGrows(s, s', ls, ls', r, a);
    case Marked(r, a) => AllGrantedGrows(s, s', ls, ls', r, a);
    case Announced(r, a) => AllGrantedGrows(s, s', ls, ls', r, a);
    case Pausing(r, a, _) => AllGrantedGrows(s, s', ls, ls', r, a);
    case Executing(r, a) => AllGrantedGrows(s, s', ls, ls', r, a);
    case _ =>
  }

  lemma ReviewerGrows(s: State, s': State, ls: seq<Label>, ls': seq<Label>, v: nat)
    requires Grows(s, s', ls, ls') && v in s.reviewers && ReviewerTraced(s, ls, v)
    requires v in s'.reviewers && s'.reviewers[v] == s.reviewers[v]
    ensures ReviewerTraced(s', ls', v)
  {
    match s.reviewers[v]
    case Resolved(r, m, approve) =>
      if approve {
        GrantedGrows(s, s', ls, ls', r, m.hook);
      }
    case RunRead(r, m, a) =>
      GrantedGrows(s, s', ls, ls', r, m.hook);
      AllGrantedGrows(s, s', ls, ls', r, a);
    case _ =>
  }

  // --- What a step changes ------------------------------------------------------------

  // The step is one of worker w: it moves only its own request and no approved ids.
  ghost predicate ByWorkerOnly(s: State, s': State, w: nat) {
    && s'.reviewers == s.reviewers
    && s'.db.runs.Keys == s.db.runs.Keys
    && (forall r :: r in s.db.runs ==> s'.db.runs[r].approved == s.db.runs[r].approved)
    && (forall u :: u in s'.workers && u != w ==> u in s.workers && s'.workers[u] == s.workers[u])
  }

  lemma WorkerStepTraced(c: Config, s: State, s': State, ls: seq<Label>, ls': seq<Label>, w: nat)
    requires Traced(c, s, ls) && Grows(s, s', ls, ls') && ByWorkerOnly(s, s', w)
    requires w in s'.workers ==> WorkerTraced(c, s', ls', w)
    ensures Traced(c, s', ls')
  {
    hide RunTraced, WorkerTraced, ReviewerTraced, Grows;
    forall r | r in s'.db.runs
      ensures RunTraced(s', ls', r)
    {
      RunGrows(s, s', ls, ls', r);
    }
    forall u | u in s'.workers
      ensures WorkerTraced(c, s', ls', u)
    {
      if u != w {
        WorkerGrows(c, s, s', ls, ls', u);
      }
    }
    forall v | v in s'.reviewers
      ensures ReviewerTraced(s', ls', v)
    {
      ReviewerGrows(s, s', ls, ls', v);
    }
  }

  // The step is one of reviewer v on run r.
  ghost predicate ByReviewerOnly(s: State, s': State, v: nat, r: nat) {
    && s'.workers == s.workers
    && s'.db.runs.Keys == s.db.runs.Keys
    && (forall q :: q in s.db.runs && q != r ==> s'.db.runs[q].approved == s.db.runs[q].approved)
    && (forall u :: u in s'.reviewers && u != v ==> u in s.reviewers && s'.reviewers[u] == s.reviewers[u])
  }

  lemma ReviewerStepTraced(c: Config, s: State, s': State, ls: seq<Label>, ls': seq<Label>, v: nat, r: nat)
    requires Traced(c, s, ls) && Grows(s, s', ls, ls') && ByReviewerOnly(s, s', v, r)
    requires v in s'.reviewers ==> ReviewerTraced(s', ls', v)
    requires r in s'.db.runs ==> RunTraced(s', ls', r)
    ensures Traced(c, s', ls')
  {
    hide RunTraced, WorkerTraced, ReviewerTraced, Grows;
    forall q | q in s'.db.runs
      ensures RunTraced(s', ls', q)
    {
      if q != r {
        RunGrows(s, s', ls, ls', q);
      }
    }
    forall w | w in s'.workers
      ensures WorkerTraced(c, s', ls', w)
    {
      WorkerGrows(c, s, s', ls, ls', w);
    }
    forall u | u in s'.reviewers
      ensures ReviewerTraced(s', ls', u)
    {
      if u != v {
        ReviewerGrows(s, s', ls, ls', u);
      }
    }
  }

  // --- The steps ------------------------------------------------------------------------

  // Worker w moved on run r: the row keeps what the gate and the approvals are about.
  ghost predicate Patched(s: State, s': State, w: nat, r: nat) {
    && r in s.db.runs && r in s'.db.runs && s'.db.runs == s.db.runs[r := s'.db.runs[r]]
    && s'.db.runs[r].approved == s.db.runs[r].approved
    && s'.db.runs[r].deployment == s.db.runs[r].deployment && s'.db.runs[r].query == s.db.runs[r].query
    && s'.reviewers == s.reviewers
    && (s'.workers == s.workers - {w} || (w in s'.workers && s'.workers == s.workers[w := s'.workers[w]]))
  }

  lemma PatchedOnly(s: State, s': State, w: nat, r: nat)
    requires Patched(s, s', w, r)
    requires forall id :: id in s.db.reviews ==> id in s'.db.reviews && s'.db.reviews[id] == s.db.reviews[id]
    ensures ByWorkerOnly(s, s', w) && Grows(s, s', [], [])
  {
  }

  lemma AnnouncementPatches(c: Config, s: State, l: Label)
    requires Step(c, s, l).Some? && OfAnnouncement(l)
    ensures RunOf(s, l).Some? && Patched(s, Step(c, s, l).value, l.worker, RunOf(s, l).value)
    ensures Step(c, s, l).value.db.reviews == s.db.reviews
  {
    hide GateOf, LogOf, SubmitLookup, SubmitSelect, SubmitInsert, ReviewerResolves, ReviewerReadsRun,
         ReviewerRequeues, ReviewerAnnouncesApproval, ReviewerWritesDenial, ReviewerAnnouncesDenial,
         WorkerClaims, WorkerMarks, WorkerWritesPause, WorkerWritesBlock, WorkerOpensReview, WorkerExecutes,
         WorkerWritesEnd, WorkerWritesHandOver;
  }

  lemma StatusPatches(c: Config, s: State, l: Label)
    requires Step(c, s, l).Some? && (l.Claim? || l.MarkRunning? || l.WritePause? || l.WriteBlock?)
    ensures RunOf(s, l).Some? && Patched(s, Step(c, s, l).value, l.worker, RunOf(s, l).value)
    ensures Step(c, s, l).value.db.reviews == s.db.reviews
  {
    hide GateOf, LogOf, SubmitLookup, SubmitSelect, SubmitInsert, ReviewerResolves, ReviewerReadsRun,
         ReviewerRequeues, ReviewerAnnouncesApproval, ReviewerWritesDenial, ReviewerAnnouncesDenial,
         WorkerAnnouncesStart, WorkerAnnouncesPause, WorkerAnnouncesBlock, WorkerAnnouncesEnd,
         WorkerAnnouncesHandOver, WorkerOpensReview, WorkerExecutes, WorkerWritesEnd, WorkerWritesHandOver;
  }

  lemma EndPatches(c: Config, s: State, l: Label)
    requires Step(c, s, l).Some? && (l.WriteEnd? || l.WriteHandOver?)
    ensures RunOf(s, l).Some? && Patched(s, Step(c, s, l).value, l.worker, RunOf(s, l).value)
    ensures Step(c, s, l).value.db.reviews == s.db.reviews
  {
    hide GateOf, LogOf, SubmitLookup, SubmitSelect, SubmitInsert, ReviewerResolves, ReviewerReadsRun,
         ReviewerRequeues, ReviewerAnnouncesApproval, ReviewerWritesDenial, ReviewerAnnouncesDenial,
         WorkerAnnouncesStart, WorkerAnnouncesPause, WorkerAnnouncesBlock, WorkerAnnouncesEnd,
         WorkerAnnouncesHandOver, WorkerClaims, WorkerMarks, WorkerWritesPause, WorkerWritesBlock,
         WorkerOpensReview, WorkerExecutes;
  }

  lemma GatePatches(c: Config, s: State, l: Label)
    requires Step(c, s, l).Some? && (l.OpenReview? || l.Execute?)
    ensures RunOf(s, l).Some? && Patched(s, Step(c, s, l).value, l.worker, RunOf(s, l).value)
    ensures forall id :: id in s.db.reviews ==>
              id in Step(c, s, l).value.db.reviews && Step(c, s, l).value.db.reviews[id] == s.db.reviews[id]
  {
    hide GateOf, LogOf, SubmitLookup, SubmitSelect, SubmitInsert, ReviewerResolves, ReviewerReadsRun,
         ReviewerRequeues, ReviewerAnnouncesApproval, ReviewerWritesDenial, ReviewerAnnouncesDenial,
         WorkerAnnouncesStart, WorkerAnnouncesPause, WorkerAnnouncesBlock, WorkerAnnouncesEnd,
         WorkerAnnouncesHandOver, WorkerClaims, WorkerMarks, WorkerWritesPause, WorkerWritesBlock,
         WorkerWritesEnd, WorkerWritesHandOver;
  }

  lemma WorkerStepOnly(c: Config, s: State, l: Label)
    requires Step(c, s, l).Some? && !OfSubmit(l) && !OfReview(l)
    ensures ByWorkerOnly(s, Step(c, s, l).value, l.worker)
    ensures Grows(s, Step(c, s, l).value, [], [])
  {
    hide Step, RunOf, Patched, ByWorkerOnly, Grows;
    if OfAnnouncement(l) {
      AnnouncementPatches(c, s, l);
    } else if l.Claim? || l.MarkRunning? || l.WritePause? || l.WriteBlock? {
      StatusPatches(c, s, l);
    } else if l.WriteEnd? || l.WriteHandOver? {
      EndPatches(c, s, l);
    } else {
      GatePatches(c, s, l);
    }
    PatchedOnly(s, Step(c, s, l).value, l.worker, RunOf(s, l).value);
  }

  lemma HeldGrows(c: Config, s: State, s': State, ls: seq<Label>, ls': seq<Label>, w: nat)
    requires Traced(c, s, ls) && Grows(s, s', ls, ls') && w in s.workers
    requires s.workers[w].Claimed? || s.workers[w].Marked? || s.workers[w].Announced?
    ensures AllGranted(s', ls', s.workers[w].run, s.workers[w].approved)
  {
    assert WorkerTraced(c, s, ls, w);
    AllGrantedGrows(s, s', ls, ls', s.workers[w].run, s.workers[w].approved);
  }

  // The ids a worker goes on with are those it had, or those of the run it claims; and
  // it executes only if the gate is open to them.
  lemma WorkerItem(c: Config, s: State, l: Label, ls: seq<Label>, ls': seq<Label>)
    requires Step(c, s, l).Some? && !OfSubmit(l) && !OfReview(l) && Traced(c, s, ls)
    requires Grows(s, Step(c, s, l).value, ls, ls')
    ensures l.worker in Step(c, s, l).value.workers ==> WorkerTraced(c, Step(c, s, l).value, ls', l.worker)
  {
    var s', w := Step(c, s, l).value, l.worker;
    match l
    case Claim(_, r) =>
      assert RunTraced(s, ls, r);
      AllGrantedGrows(s, s', ls, ls', r, s.db.runs[r].approved);
    case MarkRunning(_) => HeldGrows(c, s, s', ls, ls', w);
    case AnnounceStart(_) => HeldGrows(c, s, s', ls, ls', w);
    case OpenReview(_, _) => HeldGrows(c, s, s', ls, ls', w);
    case Execute(_) => HeldGrows(c, s, s', ls, ls', w);
    case _ =>
  }

  lemma ReviewStepOnly(c: Config, s: State, l: Label)
    requires Step(c, s, l).Some? && OfReview(l) && RunOf(s, l).Some?
    ensures ByReviewerOnly(s, Step(c, s, l).value, l.reviewer, RunOf(s, l).value)
    ensures Grows(s, Step(c, s, l).value, [], [])
  {
    hide LogOf, SubmitLookup, SubmitSelect, SubmitInsert, WorkerClaims, WorkerMarks, WorkerAnnouncesStart,
         WorkerOpensReview, WorkerWritesPause, WorkerAnnouncesPause, WorkerWritesBlock, WorkerAnnouncesBlock,
         WorkerExecutes, WorkerWritesEnd, WorkerAnnouncesEnd, WorkerWritesHandOver, WorkerAnnouncesHandOver;
  }

  lemma RunOfReview(c: Config, s: State, l: Label)
    requires Step(c, s, l).Some? && OfReview(l)
    ensures RunOf(s, l).Some?
  {
    hide SubmitLookup, SubmitSelect, SubmitInsert, WorkerClaims, WorkerMarks, WorkerAnnouncesStart,
         WorkerOpensReview, WorkerWritesPause, WorkerAnnouncesPause, WorkerWritesBlock, WorkerAnnouncesBlock,
         WorkerExecutes, WorkerWritesEnd, WorkerAnnouncesEnd, WorkerWritesHandOver, WorkerAnnouncesHandOver;
  }

  lemma GrowsWith(s: State, s': State, ls: seq<Label>, l: Label)
    requires Grows(s, s', [], [])
    ensures Grows(s, s', ls, ls + [l])
  {
  }

  lemma ResolveItem(s: State, v: nat, id: nat, approve: bool, ls: seq<Label>)
    requires ReviewerResolves(s, v, id, approve).Some?
    requires Grows(s, ReviewerResolves(s, v, id, approve).value, ls, ls + [Resolve(v, id, approve)])
    requires s.db.reviews[id].run in s.db.runs ==> RunTraced(s, ls, s.db.reviews[id].run)
    ensures var s', ls', r := ReviewerResolves(s, v, id, approve).value, ls + [Resolve(v, id, approve)], s.db.reviews[id].run;
            ReviewerTraced(s', ls', v) && (r in s'.db.runs ==> RunTraced(s', ls', r))
  {
    hide AllGranted;
    var s', ls', r := ReviewerResolves(s, v, id, approve).value, ls + [Resolve(v, id, approve)], s.db.reviews[id].run;
    assert ls'[|ls|] == Resolve(v, id, approve);
    assert approve ==> Resolve(v, id, true) in ls' && Granted(s', ls', r, s.db.reviews[id].hook);
    if r in s.db.runs {
      RunGrows(s, s', ls, ls', r);
    }
  }

  lemma ReadItem(s: State, v: nat, ls: seq<Label>)
    requires ReviewerReadsRun(s, v).Some? && Grows(s, ReviewerReadsRun(s, v).value, ls, ls + [ReadRun(v)])
    requires ReviewerTraced(s, ls, v) && RunTraced(s, ls, s.reviewers[v].run)
    ensures var s', ls', r := ReviewerReadsRun(s, v).value, ls + [ReadRun(v)], s.reviewers[v].run;
            v in s'.reviewers && ReviewerTraced(s', ls', v) && r in s'.db.runs && RunTraced(s', ls', r)
  {
    hide Granted, AllGranted, Grows;
    var s', ls', r := ReviewerReadsRun(s, v).value, ls + [ReadRun(v)], s.reviewers[v].run;
    GrantedGrows(s, s', ls, ls', r, s.reviewers[v].mark.hook);
    AllGrantedGrows(s, s', ls, ls', r, s.db.runs[r].approved);
  }

  lemma RequeueItem(s: State, v: nat, ls: seq<Label>)
    requires ReviewerRequeues(s, v).Some? && Grows(s, ReviewerRequeues(s, v).value, ls, ls + [Requeue(v)])
    requires ReviewerTraced(s, ls, v)
    ensures var s', ls', r := ReviewerRequeues(s, v).value, ls + [Requeue(v)], s.reviewers[v].run;
            v in s'.reviewers && ReviewerTraced(s', ls', v) && r in s'.db.runs && RunTraced(s', ls', r)
  {
    hide Granted, Grows;
    var s', ls' := ReviewerRequeues(s, v).value, ls + [Requeue(v)];
    var RunRead(r, m, a) := s.reviewers[v];
    GrantedGrows(s, s', ls, ls', r, m.hook);
    AllGrantedGrows(s, s', ls, ls', r, a);
  }

  // An approval is granted by its own label; what is read is what the run had; what is
  // written is what was read, with the hook of the review.
  lemma ReviewItem(c: Config, s: State, l: Label, ls: seq<Label>, r: nat)
    requires Step(c, s, l).Some? && OfReview(l) && RunOf(s, l) == Some(r)
    requires Traced(c, s, ls) && Grows(s, Step(c, s, l).value, ls, ls + [l])
    ensures l.reviewer in Step(c, s, l).value.reviewers ==> ReviewerTraced(Step(c, s, l).value, ls + [l], l.reviewer)
    ensures r in Step(c, s, l).value.db.runs ==> RunTraced(Step(c, s, l).value, ls + [l], r)
  {
    hide Grows, Granted, AllGranted, WorkerTraced;
    match l
    case Resolve(v, id, approve) => ResolveItem(s, v, id, approve, ls);
    case ReadRun(v) => ReadItem(s, v, ls);
    case Requeue(v) => RequeueItem(s, v, ls);
    case AnnounceApproval(v) => RunGrows(s, Step(c, s, l).value, ls, ls + [l], r);
    case WriteDenial(v) => RunGrows(s, Step(c, s, l).value, ls, ls + [l], r);
    case AnnounceDenial(v) => RunGrows(s, Step(c, s, l).value, ls, ls + [l], r);
  }

  lemma SubmitGrows(c: Config, s: State, l: Label)
    requires Step(c, s, l).Some? && OfSubmit(l)
    ensures var s' := Step(c, s, l).value;
            && Grows(s, s', [], []) && s'.workers == s.workers && s'.reviewers == s.reviewers
            && (forall r :: r in s.db.runs ==> s'.db.runs[r] == s.db.runs[r])
            && (forall r :: r in s'.db.runs && r !in s.db.runs ==> s'.db.runs[r].approved == [])
  {
    hide Finds, KeyTaken, SubmitLookup, SubmitSelect, WorkerClaims, WorkerMarks,
         WorkerAnnouncesStart, WorkerOpensReview, WorkerWritesPause, WorkerAnnouncesPause, WorkerWritesBlock,
         WorkerAnnouncesBlock, WorkerExecutes, WorkerWritesEnd, WorkerAnnouncesEnd, WorkerWritesHandOver,
         WorkerAnnouncesHandOver, ReviewerResolves, ReviewerReadsRun, ReviewerRequeues,
         ReviewerAnnouncesApproval, ReviewerWritesDenial, ReviewerAnnouncesDenial;
    if l.Lookup? || l.SelectKey? {
      LookupShape(c, s, l);
    }
  }

  // A submit adds a run without approvals, or moves nothing that counts.
  lemma SubmitStepTraced(c: Config, s: State, l: Label, ls: seq<Label>)
    requires Step(c, s, l).Some? && OfSubmit(l) && Traced(c, s, ls)
    ensures Traced(c, Step(c, s, l).value, ls + [l])
  {
    hide WorkerTraced, ReviewerTraced;
    var s' := Step(c, s, l).value;
    SubmitGrows(c, s, l);
    GrowsWith(s, s', ls, l);
    forall r | r in s'.db.runs
      ensures RunTraced(s', ls + [l], r)
    {
      if r in s.db.runs {
        RunGrows(s, s', ls, ls + [l], r);
      }
    }
    forall w | w in s'.workers
      ensures WorkerTraced(c, s', ls + [l], w)
    {
      WorkerGrows(c, s, s', ls, ls + [l], w);
    }
    forall v | v in s'.reviewers
      ensures ReviewerTraced(s', ls + [l], v)
    {
      ReviewerGrows(s, s', ls, ls + [l], v);
    }
  }

  lemma StepTraced(c: Config, s: State, l: Label, ls: seq<Label>)
    requires Step(c, s, l).Some? && Traced(c, s, ls)
    ensures Traced(c, Step(c, s, l).value, ls + [l])
  {
    hide Traced, Step, Grows, ByReviewerOnly, ByWorkerOnly, RunTraced, WorkerTraced, ReviewerTraced;
    var s' := Step(c, s, l).value;
    if OfSubmit(l) {
      SubmitStepTraced(c, s, l, ls);
    } else if OfReview(l) {
      RunOfReview(c, s, l);
      ReviewStepOnly(c, s, l);
      GrowsWith(s, s', ls, l);
      ReviewItem(c, s, l, ls, RunOf(s, l).value);
      ReviewerStepTraced(c, s, s', ls, ls + [l], l.reviewer, RunOf(s, l).value);
    } else {
      WorkerStepOnly(c, s, l);
      GrowsWith(s, s', ls, l);
      WorkerItem(c, s, l, ls, ls + [l]);
      WorkerStepTraced(c, s, s', ls, ls + [l], l.worker);
    }
  }

  lemma {:induction false} ExecutionTraced(c: Config, s: State, ls: seq<Label>, more: seq<Label>)
    requires Traced(c, s, ls) && After(c, s, more).Some?
    ensures Traced(c, After(c, s, more).value, ls + more)
    decreases |more|
  {
    hide Traced, Step;
    if |more| == 0 {
      assert ls + more == ls;
    } else {
      StepTraced(c, s, more[0], ls);
      ExecutionTraced(c, Step(c, s, more[0]).value, ls + [more[0]], more[1..]);
      assert (ls + [more[0]]) + more[1..] == ls + more;
    }
  }

  // The gate let the first k hooks pass: the next one is a continue hook of the point that
  // is not approved and all of whose conditions are met, if there is one, and every hook of
  // the point before it has an unmet condition or was approved for this run by one of the
  // labels.
  ghost predicate PassedBy(c: Config, s: State, ls: seq<Label>, r: nat, approved: seq<string>, k: nat)
    requires r in s.db.runs && s.db.runs[r].deployment in c.deployments
  {
    var row := s.db.runs[r];
    var hooks := c.deployments[row.deployment].hooks;
    && k <= |hooks|
    && (k < |hooks| ==>
          && hooks[k].action == Hooks.ContinueRun
          && hooks[k].id !in approved && hooks[k].point == "before_workflow"
          && AllMet(c, r, row, approved, hooks[k].conditions))
    && forall i :: 0 <= i < k && hooks[i].point == "before_workflow" && !SomeUnmet(c, r, row, approved, hooks[i].conditions)
         ==> Granted(s, ls, r, hooks[i].id)
  }

  lemma OpenIsPassed(c: Config, s: State, ls: seq<Label>, r: nat, approved: seq<string>) returns (k: nat)
    requires r in s.db.runs && s.db.runs[r].deployment in c.deployments
    requires GateOf(c, r, s.db.runs[r], approved).Open? && AllGranted(s, ls, r, approved)
    ensures PassedBy(c, s, ls, r, approved, k)
  {
    hide Granted, GateOf, AllMet, SomeUnmet;
    k := GateMeans(c, r, s.db.runs[r], approved);
  }

  // Over every execution, however reviews are resolved and workers interleave: a runner
  // executes a run only past hooks that a resolution of a review of that run approved.
  lemma GateOverAllRuns(c: Config, s: State, ls: seq<Label>, w: nat)
    requires After(c, INITIAL, ls) == Some(s) && w in s.workers && s.workers[w].Executing?
    ensures s.workers[w].run in s.db.runs && s.db.runs[s.workers[w].run].deployment in c.deployments
    ensures exists k: nat :: PassedBy(c, s, ls, s.workers[w].run, s.workers[w].approved, k)
  {
    hide PassedBy, RunTraced, ReviewerTraced, AllGranted;
    ExecutionTraced(c, INITIAL, [], ls);
    assert [] + ls == ls;
    assert WorkerTraced(c, s, ls, w);
    var k := OpenIsPassed(c, s, ls, s.workers[w].run, s.workers[w].approved);
  }
}
