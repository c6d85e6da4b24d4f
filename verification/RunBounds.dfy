// Replay is bounded: claims are counted by approvals, every step on a run shrinks a
// measure, and a run that has not ended has a next step.
module RunBounds {
  import opened Outcomes
  import opened RunLog
  import opened RunTables
  import opened RunProtocol
  import opened RunInvariant
  import opened RunPreserved
  import opened RunPreservedReview
  import opened RunPreservedApproval
  import opened RunTheorems
  import Hooks = RuntimeHooks
  import Keys = RunKeys

  // --- Claims ------------------------------------------------------------------------

  lemma {:induction false} DistinctWithin(s: seq<string>, of: set<string>)
    requires NoDuplicates(s) && forall x :: x in s ==> x in of
    ensures |s| <= |of|
  {
    if |s| > 0 {
      var front, last := s[..|s| - 1], s[|s| - 1];
      DistinctWithin(front, of - {last});
    }
  }

  lemma ClaimsOf(c: Config, db: Db, claims: map<nat, nat>, r: nat)
    requires r in db.runs && RowOk(c, db, claims, r)
    ensures |db.runs[r].approved| <= |HookIds(c.deployments[db.runs[r].deployment])|
  {
    DistinctWithin(db.runs[r].approved, HookIds(c.deployments[db.runs[r].deployment]));
  }

  // claims(r) = 1 + approvals(r) - [r is QUEUED], and approvals are distinct hooks of
  // the deployment: a run is claimed at most once more than it has hook ids.
  lemma ClaimsOverRuns(c: Config, s: State, ls: seq<Label>, patient: bool, r: nat)
    requires Reached(c, s, ls, patient) && r in s.db.runs
    ensures s.db.runs[r].deployment in c.deployments && r in s.claims
    ensures var row := s.db.runs[r];
            && s.claims[r] == 1 + |row.approved| - (if row.status == QUEUED then 1 else 0)
            && NoDuplicates(row.approved)
            && |row.approved| <= |HookIds(c.deployments[row.deployment])|
            && s.claims[r] <= |HookIds(c.deployments[row.deployment])| + 1
  {
    ReachedInv(c, s, ls, patient);
    assert RunOk(c, s, r);
    ClaimsOf(c, s.db, s.claims, r);
  }

  // --- The measure -------------------------------------------------------------------

  // Hook ids of the deployment that no review of the run has approved.
  ghost function Unapproved(c: Config, row: RunRow): set<string>
    requires row.deployment in c.deployments
  {
    HookIds(c.deployments[row.deployment]) - (set h | h in row.approved)
  }

  // Steps left in the current round.
  ghost function Rank(s: State, r: nat): nat
    requires r in s.db.runs && r in s.charge
  {
    match s.charge[r]
    case Nobody =>
      (match s.db.runs[r].status
       case QUEUED => 9
       case REVIEW => 3
       case _ => 0)
    case ByWorker(w) =>
      if w !in s.workers then 0
      else (match s.workers[w]
            case Claimed(_, _) => 8
            case Marked(_, _) => 7
            case Announced(_, _) => 6
            case Executing(_, _) => 5
            case Pausing(_, _, _) => 5
            case PauseWritten(_, _) => 4
            case _ => 1)
    case ByReviewer(v) =>
      if v !in s.reviewers then 0
      else (match s.reviewers[v]
            case Resolved(_, _, _) => 2
            case _ => 1)
  }

  ghost function OwedOn(s: State, r: nat): set<nat> {
    set id | id in s.owed && id in s.db.reviews && s.db.reviews[id].run == r
  }

  ghost function Measure(c: Config, s: State, r: nat): nat
    requires r in s.db.runs && r in s.charge && s.db.runs[r].deployment in c.deployments
  {
    10 * |Unapproved(c, s.db.runs[r])| + Rank(s, r) + |OwedOn(s, r)|
  }

  ghost predicate Measured(c: Config, s: State, r: nat) {
    r in s.db.runs && r in s.charge && s.db.runs[r].deployment in c.deployments
  }

  lemma InvMeasured(c: Config, s: State, r: nat)
    requires Inv(c, s) && r in s.db.runs
    ensures Measured(c, s, r)
  {
    assert RunOk(c, s, r);
  }

  lemma MeasureFrame(c: Config, s: State, s': State, q: nat)
    requires Measured(c, s, q) && Measured(c, s', q) && InHand(c, s, q)
    requires SameRun(s, s', q) && SameActors(s, s', q) && SameReviews(s, s', q)
    ensures Measure(c, s', q) == Measure(c, s, q)
  {
    assert OwedOn(s', q) == OwedOn(s, q);
    assert Rank(s', q) == Rank(s, q);
  }

  // The same row and owed reviews: only the rank moves.
  lemma RankMoves(c: Config, s: State, s': State, r: nat)
    requires Measured(c, s, r) && Measured(c, s', r)
    requires s'.db.runs[r].approved == s.db.runs[r].approved && s'.db.runs[r].deployment == s.db.runs[r].deployment
    requires OwedOn(s', r) == OwedOn(s, r)
    ensures Measure(c, s', r) - Measure(c, s, r) == Rank(s', r) - Rank(s, r)
  {
  }

  // The worker of the step has the run in charge, or claims it at rest.
  ghost predicate WorkersCharged(s: State, l: Label, r: nat) {
    r in s.charge && (if l.Claim? then s.charge[r] == Nobody else
      OfSubmit(l) || OfReview(l) || s.charge[r] == ByWorker(l.worker))
  }

  // What the row says when the worker announces the end of its request.
  lemma WorkerStatuses(c: Config, s: State, l: Label, r: nat)
    requires Step(c, s, l).Some? && RunOf(s, l) == Some(r) && !OfReview(l)
    requires r in s.db.runs && RunOk(c, s, r) && WorkersCharged(s, l, r)
    ensures l.AnnouncePause? ==> s.db.runs[r].status == REVIEW
    ensures l.AnnounceBlock? || l.AnnounceEnd? || l.AnnounceHandOver? ==> s.db.runs[r].status !in {QUEUED, REVIEW}
  {
    hide LogOk, WorkersOf, ReviewersOf, OwedOf, ReviewsOf, RowOk, SubmitLookup, SubmitSelect, SubmitInsert,
         ReviewerResolves, ReviewerReadsRun, ReviewerRequeues, ReviewerAnnouncesApproval,
         ReviewerWritesDenial, ReviewerAnnouncesDenial;
  }

  // The approvals of the run, and what is owed on which run, are as they were.
  ghost predicate ApprovalsKept(s: State, s': State, r: nat) {
    && r in s.db.runs && r in s'.db.runs
    && s'.db.runs[r].approved == s.db.runs[r].approved && s'.db.runs[r].deployment == s.db.runs[r].deployment
    && s'.owed == s.owed
    && forall id :: id in s.owed ==>
         id in s.db.reviews && id in s'.db.reviews && s'.db.reviews[id].run == s.db.reviews[id].run
  }

  lemma AnnouncementKeeps(c: Config, s: State, l: Label, r: nat)
    requires Step(c, s, l).Some? && OfAnnouncement(l) && Homes(c, s) && r in s.db.runs
    ensures ApprovalsKept(s, Step(c, s, l).value, r)
  {
    hide GateOf, LogOf, SubmitLookup, SubmitSelect, SubmitInsert, ReviewerResolves, ReviewerReadsRun,
         ReviewerRequeues, ReviewerAnnouncesApproval, ReviewerWritesDenial, ReviewerAnnouncesDenial,
         WorkerClaims, WorkerMarks, WorkerWritesPause, WorkerWritesBlock, WorkerOpensReview, WorkerExecutes,
         WorkerWritesEnd, WorkerWritesHandOver;
  }

  lemma StatusKeeps(c: Config, s: State, l: Label, r: nat)
    requires Step(c, s, l).Some? && (l.Claim? || l.MarkRunning? || l.WritePause? || l.WriteBlock?) && Homes(c, s) && r in s.db.runs
    ensures ApprovalsKept(s, Step(c, s, l).value, r)
  {
    hide GateOf, LogOf, SubmitLookup, SubmitSelect, SubmitInsert, ReviewerResolves, ReviewerReadsRun,
         ReviewerRequeues, ReviewerAnnouncesApproval, ReviewerWritesDenial, ReviewerAnnouncesDenial,
         WorkerAnnouncesStart, WorkerAnnouncesPause, WorkerAnnouncesBlock, WorkerAnnouncesEnd,
         WorkerAnnouncesHandOver, WorkerOpensReview, WorkerExecutes, WorkerWritesEnd, WorkerWritesHandOver;
  }

  lemma WriteKeeps(c: Config, s: State, l: Label, r: nat)
    requires Step(c, s, l).Some? && (l.OpenReview? || l.Execute? || l.WriteEnd? || l.WriteHandOver?) && Homes(c, s) && r in s.db.runs
    ensures ApprovalsKept(s, Step(c, s, l).value, r)
  {
    hide GateOf, LogOf, SubmitLookup, SubmitSelect, SubmitInsert, ReviewerResolves, ReviewerReadsRun,
         ReviewerRequeues, ReviewerAnnouncesApproval, ReviewerWritesDenial, ReviewerAnnouncesDenial,
         WorkerAnnouncesStart, WorkerAnnouncesPause, WorkerAnnouncesBlock, WorkerAnnouncesEnd,
         WorkerAnnouncesHandOver, WorkerClaims, WorkerMarks, WorkerWritesPause, WorkerWritesBlock;
  }

  lemma WorkerKeeps(c: Config, s: State, l: Label, r: nat)
    requires Step(c, s, l).Some? && RunOf(s, l) == Some(r) && !OfReview(l) && Homes(c, s) && r in s.db.runs
    ensures ApprovalsKept(s, Step(c, s, l).value, r)
  {
    hide Step, ApprovalsKept, Homes;
    if OfAnnouncement(l) {
      AnnouncementKeeps(c, s, l, r);
    } else if l.Claim? || l.MarkRunning? || l.WritePause? || l.WriteBlock? {
      StatusKeeps(c, s, l, r);
    } else {
      WriteKeeps(c, s, l, r);
    }
  }

  lemma AnnouncementRanks(c: Config, s: State, l: Label, r: nat)
    requires Step(c, s, l).Some? && RunOf(s, l) == Some(r) && OfAnnouncement(l)
    requires r in s.db.runs && WorkersCharged(s, l, r)
    requires r in Step(c, s, l).value.db.runs && r in Step(c, s, l).value.charge
    requires l.AnnouncePause? ==> s.db.runs[r].status == REVIEW
    requires l.AnnounceBlock? || l.AnnounceEnd? || l.AnnounceHandOver? ==> s.db.runs[r].status !in {QUEUED, REVIEW}
    ensures Rank(Step(c, s, l).value, r) < Rank(s, r)
  {
    hide SubmitLookup, SubmitSelect, SubmitInsert, ReviewerResolves, ReviewerReadsRun, ReviewerRequeues,
         ReviewerAnnouncesApproval, ReviewerWritesDenial, ReviewerAnnouncesDenial, WorkerClaims,
         WorkerMarks, WorkerWritesPause, WorkerWritesBlock, WorkerOpensReview, WorkerExecutes,
         WorkerWritesEnd, WorkerWritesHandOver;
  }

  lemma WriteRanks(c: Config, s: State, l: Label, r: nat)
    requires Step(c, s, l).Some? && RunOf(s, l) == Some(r) && !OfSubmit(l) && !OfReview(l) && !OfAnnouncement(l)
    requires r in s.db.runs && WorkersCharged(s, l, r)
    requires r in Step(c, s, l).value.db.runs && r in Step(c, s, l).value.charge
    ensures Rank(Step(c, s, l).value, r) < Rank(s, r)
  {
    hide SubmitLookup, SubmitSelect, SubmitInsert, ReviewerResolves, ReviewerReadsRun, ReviewerRequeues,
         ReviewerAnnouncesApproval, ReviewerWritesDenial, ReviewerAnnouncesDenial, WorkerAnnouncesStart,
         WorkerAnnouncesPause, WorkerAnnouncesBlock, WorkerAnnouncesEnd, WorkerAnnouncesHandOver, GateOf;
  }

  lemma WorkerRanks(c: Config, s: State, l: Label, r: nat)
    requires Step(c, s, l).Some? && RunOf(s, l) == Some(r) && !OfReview(l)
    requires r in s.db.runs && WorkersCharged(s, l, r)
    requires r in Step(c, s, l).value.db.runs && r in Step(c, s, l).value.charge
    requires l.AnnouncePause? ==> s.db.runs[r].status == REVIEW
    requires l.AnnounceBlock? || l.AnnounceEnd? || l.AnnounceHandOver? ==> s.db.runs[r].status !in {QUEUED, REVIEW}
    ensures Rank(Step(c, s, l).value, r) < Rank(s, r)
  {
    hide Step, WorkersCharged, Rank;
    if OfAnnouncement(l) {
      AnnouncementRanks(c, s, l, r);
    } else {
      WriteRanks(c, s, l, r);
    }
  }

  lemma WorkerShrinks(c: Config, s: State, l: Label, r: nat)
    requires Step(c, s, l).Some? && RunOf(s, l) == Some(r) && !OfReview(l)
    requires r in s.db.runs && RunOk(c, s, r) && WorkersCharged(s, l, r) && Homes(c, s)
    requires Measured(c, s, r) && Measured(c, Step(c, s, l).value, r)
    ensures Measure(c, Step(c, s, l).value, r) < Measure(c, s, r)
  {
    hide Step, RunOf, RunOk, WorkersCharged, Rank;
    var s' := Step(c, s, l).value;
    WorkerKeeps(c, s, l, r);
    WorkerStatuses(c, s, l, r);
    assert OwedOn(s', r) == OwedOn(s, r);
    RankMoves(c, s, s', r);
    WorkerRanks(c, s, l, r);
  }

  lemma RequeueApproves(c: Config, s: State, s': State, v: nat, r: nat)
    requires ReviewerRequeues(s, v) == Some(s') && s.reviewers[v].run == r && r in s.db.runs && RunOk(c, s, r)
    requires Measured(c, s, r) && Measured(c, s', r)
    ensures var m := s.reviewers[v].mark;
            && m.hook in Unapproved(c, s.db.runs[r])
            && Unapproved(c, s'.db.runs[r]) == Unapproved(c, s.db.runs[r]) - {m.hook}
  {
    hide LogOk, WorkersOf, ReviewsOf, OwedOf, StageOf;
    ReviewerInCharge(c, s, v, r);
    RequeueRow(c, s, s', v, r);
  }

  lemma RequeueOwes(c: Config, s: State, s': State, v: nat, r: nat)
    requires ReviewerRequeues(s, v) == Some(s') && s.reviewers[v].run == r && r in s.db.runs && RunOk(c, s, r)
    ensures OwedOn(s', r) == OwedOn(s, r) + {s.reviewers[v].mark.review}
  {
    hide LogOk, WorkersOf, ReviewsOf, OwedOf, RowOk, StageOf;
    ReviewerInCharge(c, s, v, r);
  }

  lemma RequeueRank(c: Config, s: State, s': State, v: nat, r: nat)
    requires ReviewerRequeues(s, v) == Some(s') && s.reviewers[v].run == r && r in s.db.runs && RunOk(c, s, r)
    requires r in s.charge && r in s'.charge
    ensures Rank(s, r) == 1 && Rank(s', r) == 9
  {
    hide LogOk, WorkersOf, ReviewsOf, OwedOf, RowOk, StageOf;
    ReviewerInCharge(c, s, v, r);
  }

  // Requeueing trades one unapproved hook for a new round.
  lemma RequeueShrinks(c: Config, s: State, v: nat, r: nat)
    requires ReviewerRequeues(s, v).Some? && s.reviewers[v].run == r && r in s.db.runs && RunOk(c, s, r)
    requires Measured(c, s, r) && Measured(c, ReviewerRequeues(s, v).value, r)
    ensures Measure(c, ReviewerRequeues(s, v).value, r) < Measure(c, s, r)
    ensures Unapproved(c, ReviewerRequeues(s, v).value.db.runs[r]) < Unapproved(c, s.db.runs[r])
  {
    hide RunOk, Unapproved, OwedOn, Rank;
    var s', m := ReviewerRequeues(s, v).value, s.reviewers[v].mark;
    RequeueApproves(c, s, s', v, r);
    RequeueOwes(c, s, s', v, r);
    RequeueRank(c, s, s', v, r);
  }

  lemma ApprovalRank(c: Config, s: State, v: nat, r: nat)
    requires ReviewerAnnouncesApproval(s, v).Some? && s.reviewers[v].run == r
    requires r in s.db.runs && RowOk(c, s.db, s.claims, r) && InHand(c, s, r)
    ensures Rank(ReviewerAnnouncesApproval(s, v).value, r) == Rank(s, r)
  {
  }

  lemma ApprovalShrinks(c: Config, s: State, v: nat, r: nat)
    requires ReviewerAnnouncesApproval(s, v).Some? && s.reviewers[v].run == r && r in s.db.runs && RunOk(c, s, r)
    requires Measured(c, s, r) && Measured(c, ReviewerAnnouncesApproval(s, v).value, r)
    ensures Measure(c, ReviewerAnnouncesApproval(s, v).value, r) < Measure(c, s, r)
  {
    var s', m, ps := ReviewerAnnouncesApproval(s, v).value, s.reviewers[v].mark, Pauses(s.db, r);
    var i :| 0 <= i < |s.db.runs[r].approved| && i < |ps| && ps[i] == m;
    assert ReviewIs(s.db, ps[i], r, Accepted);
    assert m.review in OwedOn(s, r);
    assert OwedOn(s', r) == OwedOn(s, r) - {m.review};
    ApprovalRank(c, s, v, r);
  }

  lemma ResolveShrinks(c: Config, s: State, l: Label, r: nat)
    requires l.Resolve? && Step(c, s, l).Some? && RunOf(s, l) == Some(r) && r in s.db.runs
    requires RowOk(c, s.db, s.claims, r) && InHand(c, s, r) && Resolvable(s.db, l.review)
    requires Measured(c, s, r) && Measured(c, Step(c, s, l).value, r)
    ensures Measure(c, Step(c, s, l).value, r) < Measure(c, s, r)
  {
    hide SubmitLookup, SubmitSelect, SubmitInsert, WorkerClaims, WorkerMarks, WorkerAnnouncesStart,
         WorkerOpensReview, WorkerWritesPause, WorkerAnnouncesPause, WorkerWritesBlock, WorkerAnnouncesBlock,
         WorkerExecutes, WorkerWritesEnd, WorkerAnnouncesEnd, WorkerWritesHandOver, WorkerAnnouncesHandOver,
         RowOk, InHand, Resolvable, LogOf, StageOf;
    var s' := Step(c, s, l).value;
    ResolvableRestsOn(c, s, l.review, r);
    assert OwedOn(s', r) == OwedOn(s, r);
    RankMoves(c, s, s', r);
  }

  lemma DecisionShrinks(c: Config, s: State, l: Label, r: nat)
    requires l.ReadRun? || l.WriteDenial? || l.AnnounceDenial?
    requires Step(c, s, l).Some? && RunOf(s, l) == Some(r) && r in s.db.runs
    requires r in s.charge && s.charge[r] == ByReviewer(l.reviewer)
    requires l.AnnounceDenial? ==> s.db.runs[r].status == BLOCKED
    requires Measured(c, s, r) && Measured(c, Step(c, s, l).value, r)
    ensures Measure(c, Step(c, s, l).value, r) < Measure(c, s, r)
  {
    hide SubmitLookup, SubmitSelect, SubmitInsert, WorkerClaims, WorkerMarks, WorkerWritesPause,
         WorkerWritesBlock, WorkerOpensReview, WorkerExecutes, WorkerWritesEnd, WorkerWritesHandOver,
         WorkerAnnouncesStart, WorkerAnnouncesPause, WorkerAnnouncesBlock, WorkerAnnouncesEnd,
         WorkerAnnouncesHandOver;
    var s' := Step(c, s, l).value;
    assert OwedOn(s', r) == OwedOn(s, r);
    RankMoves(c, s, s', r);
  }

  lemma RunParts(c: Config, s: State, r: nat)
    requires r in s.db.runs && RunOk(c, s, r)
    ensures RowOk(c, s.db, s.claims, r) && InHand(c, s, r) && LogOk(s, r) && OwedOf(s, r) && ReviewersOf(s, r)
  {
    hide RowOk, InHand, LogOk, WorkersOf, ReviewersOf, OwedOf, ReviewsOf;
  }

  lemma ReviewerOn(s: State, l: Label, r: nat)
    requires OfReview(l) && !l.Resolve? && RunOf(s, l) == Some(r)
    ensures l.reviewer in s.reviewers && s.reviewers[l.reviewer].run == r
  {
  }

  lemma ReviewerCharged(c: Config, s: State, l: Label, r: nat)
    requires l.ReadRun? || l.WriteDenial? || l.AnnounceDenial?
    requires Step(c, s, l).Some? && RunOf(s, l) == Some(r) && r in s.db.runs && RunOk(c, s, r)
    ensures r in s.charge && s.charge[r] == ByReviewer(l.reviewer)
    ensures l.AnnounceDenial? ==> s.db.runs[r].status == BLOCKED
  {
    hide RowOk, LogOk, WorkersOf, OwedOf, ReviewsOf, SubmitLookup, SubmitSelect, SubmitInsert, WorkerClaims,
         WorkerMarks, WorkerAnnouncesStart, WorkerOpensReview, WorkerWritesPause, WorkerAnnouncesPause,
         WorkerWritesBlock, WorkerAnnouncesBlock, WorkerExecutes, WorkerWritesEnd, WorkerAnnouncesEnd,
         WorkerWritesHandOver, WorkerAnnouncesHandOver;
    ReviewerInCharge(c, s, l.reviewer, r);
  }

  lemma ReviewShrinks(c: Config, s: State, l: Label, r: nat)
    requires Step(c, s, l).Some? && RunOf(s, l) == Some(r) && OfReview(l) && Careful(s, l)
    requires r in s.db.runs && RunOk(c, s, r)
    requires Measured(c, s, r) && Measured(c, Step(c, s, l).value, r)
    ensures Measure(c, Step(c, s, l).value, r) < Measure(c, s, r)
  {
    hide Measure, Measured, RunOk, Resolvable, RowOk, InHand, LogOk, WorkersOf, ReviewersOf, OwedOf,
         ReviewsOf, SubmitLookup, SubmitSelect, SubmitInsert, WorkerClaims, WorkerMarks, WorkerAnnouncesStart,
         WorkerOpensReview, WorkerWritesPause, WorkerAnnouncesPause, WorkerWritesBlock, WorkerAnnouncesBlock,
         WorkerExecutes, WorkerWritesEnd, WorkerAnnouncesEnd, WorkerWritesHandOver, WorkerAnnouncesHandOver;
    RunParts(c, s, r);
    if l.Resolve? {
      ResolveShrinks(c, s, l, r);
    } else {
      ReviewerOn(s, l, r);
      if l.Requeue? {
        RequeueShrinks(c, s, l.reviewer, r);
      } else if l.AnnounceApproval? {
        ApprovalShrinks(c, s, l.reviewer, r);
      } else {
        ReviewerCharged(c, s, l, r);
        DecisionShrinks(c, s, l, r);
      }
    }
  }

  lemma ChargeOfStep(c: Config, s: State, l: Label, r: nat)
    requires Step(c, s, l).Some? && RunOf(s, l) == Some(r) && !OfReview(l)
    requires r in s.db.runs && RunOk(c, s, r)
    ensures WorkersCharged(s, l, r)
  {
  }

  lemma InvRun(c: Config, s: State, r: nat)
    requires Inv(c, s) && r in s.db.runs
    ensures RunOk(c, s, r) && Homes(c, s)
  {
    hide RunOk, Homes;
  }

  lemma RunsGrow(c: Config, s: State, l: Label)
    requires Step(c, s, l).Some?
    ensures s.db.runs.Keys <= Step(c, s, l).value.db.runs.Keys
  {
    if !OfSubmit(l) {
      hide Step;
      Keys.OtherStepKeepsRuns(c, s, l);
    }
  }

  // Every step on a run shrinks its measure.
  lemma StepShrinks(c: Config, s: State, l: Label, r: nat)
    requires Inv(c, s) && Step(c, s, l).Some? && Careful(s, l) && RunOf(s, l) == Some(r) && r in s.db.runs
    ensures Inv(c, Step(c, s, l).value) && Measured(c, s, r) && Measured(c, Step(c, s, l).value, r)
    ensures Measure(c, Step(c, s, l).value, r) < Measure(c, s, r)
  {
    hide Inv, Measure, Step, RunOf, RunOk, Homes;
    InvRun(c, s, r);
    StepKeepsInv(c, s, l);
    InvMeasured(c, s, r);
    RunsGrow(c, s, l);
    InvMeasured(c, Step(c, s, l).value, r);
    if OfReview(l) {
      ReviewShrinks(c, s, l, r);
    } else {
      ChargeOfStep(c, s, l, r);
      WorkerShrinks(c, s, l, r);
    }
  }

  lemma SubmitElsewhere(c: Config, s: State, l: Label, r: nat)
    requires Step(c, s, l).Some? && OfSubmit(l) && r in s.db.runs
    ensures SameRun(s, Step(c, s, l).value, r) && SameActors(s, Step(c, s, l).value, r) && SameReviews(s, Step(c, s, l).value, r)
  {
    if l.Insert? {
      assert LogOf(Step(c, s, l).value.db, r) == LogOf(s.db, r);
    } else {
      LookupShape(c, s, l);
    }
  }

  lemma MeasuredParts(c: Config, s: State, r: nat)
    requires Measured(c, s, r) && RunOk(c, s, r)
    ensures s.db.runs[r].deployment in c.deployments && InHand(c, s, r)
  {
    hide InHand, RowOk, LogOk, WorkersOf, ReviewersOf, OwedOf, ReviewsOf;
  }

  // Steps of submits, and steps on other runs, leave the measure as it is.
  lemma StepElsewhere(c: Config, s: State, l: Label, r: nat)
    requires Inv(c, s) && Step(c, s, l).Some? && Careful(s, l) && RunOf(s, l) != Some(r) && r in s.db.runs
    ensures Inv(c, Step(c, s, l).value) && Measured(c, s, r) && Measured(c, Step(c, s, l).value, r)
    ensures Measure(c, Step(c, s, l).value, r) == Measure(c, s, r)
  {
    hide Inv, Step, RunOf, RunOk, Careful, Measure, Measured, SameRun, SameActors, SameReviews, InHand;
    var s' := Step(c, s, l).value;
    StepKeepsInv(c, s, l);
    InvMeasured(c, s, r);
    RunsGrow(c, s, l);
    InvMeasured(c, s', r);
    if OfSubmit(l) {
      SubmitElsewhere(c, s, l, r);
    }
    InvRun(c, s, r);
    MeasuredParts(c, s, r);
    MeasureFrame(c, s, s', r);
  }

  // How many of the steps are on the run.
  ghost function StepsOn(c: Config, s: State, ls: seq<Label>, r: nat): nat
    decreases |ls|
  {
    if |ls| == 0 || Step(c, s, ls[0]).None? then 0
    else (if RunOf(s, ls[0]) == Some(r) then 1 else 0) + StepsOn(c, Step(c, s, ls[0]).value, ls[1..], r)
  }

  lemma StepBound(c: Config, s: State, l: Label, r: nat)
    requires Inv(c, s) && Step(c, s, l).Some? && Careful(s, l) && r in s.db.runs
    ensures var s' := Step(c, s, l).value;
            && Inv(c, s') && Measured(c, s, r) && Measured(c, s', r)
            && Measure(c, s', r) + (if RunOf(s, l) == Some(r) then 1 else 0) <= Measure(c, s, r)
  {
    if RunOf(s, l) == Some(r) {
      StepShrinks(c, s, l, r);
    } else {
      StepElsewhere(c, s, l, r);
    }
  }

  lemma FreshOwed(c: Config, s: State, s': State, r: nat)
    requires Homes(c, s) && r !in s.db.runs && s'.db.reviews == s.db.reviews && s'.owed == s.owed
    ensures OwedOn(s', r) == {}
  {
  }

  lemma FreshMeasure(c: Config, s: State, u: nat, r: nat)
    requires Inv(c, s) && SubmitInsert(c, s, u, r).Some? && r in SubmitInsert(c, s, u, r).value.db.runs
    ensures Measured(c, SubmitInsert(c, s, u, r).value, r)
    ensures var s' := SubmitInsert(c, s, u, r).value;
            Measure(c, s', r) == 10 * |HookIds(c.deployments[s'.db.runs[r].deployment])| + 9
  {
    hide RunOk, Homes, RowOk;
    var s' := SubmitInsert(c, s, u, r).value;
    KeepsInsert(c, s, u, r);
    InvMeasured(c, s', r);
    FreshOwed(c, s, s', r);
    assert Unapproved(c, s'.db.runs[r]) == HookIds(c.deployments[s'.db.runs[r].deployment]);
  }

  // --- Progress ------------------------------------------------------------------------

  // The run has ended: no step is on it any more, or Temporal has taken it over.
  ghost predicate Ended(s: State, r: nat)
    requires r in s.db.runs && r in s.charge
  {
    s.charge[r] == Nobody && s.db.runs[r].status !in {QUEUED, REVIEW}
  }

  // The worker of the run cannot leave the gate: a condition raised, or no runner
  // supports the runtime.
  ghost predicate StuckAtGate(c: Config, s: State, r: nat)
    requires r in s.db.runs && r in s.charge && s.db.runs[r].deployment in c.deployments
  {
    && s.charge[r].ByWorker?
    && s.charge[r].worker in s.workers
    && s.workers[s.charge[r].worker].Announced?
    && var g := GateOf(c, r, s.db.runs[r], s.db.runs[r].approved);
       g.GateRaises? || (g.Open? && c.deployments[s.db.runs[r].deployment].runtime.Unsupported?)
  }

  lemma ClaimEnabled(c: Config, s: State, r: nat, request: nat)
    requires r in s.db.runs && RowOk(c, s.db, s.claims, r) && request !in s.workers && s.db.runs[r].status == QUEUED
    ensures Step(c, s, Claim(request, r)).Some?
  {
  }

  lemma RestingStep(c: Config, s: State, r: nat, request: nat) returns (l: Label)
    requires r in s.db.runs && RowOk(c, s.db, s.claims, r) && InHand(c, s, r) && request !in s.reviewers
    requires s.charge[r] == Nobody && s.db.runs[r].status == REVIEW
    ensures Step(c, s, l).Some? && Careful(s, l) && RunOf(s, l) == Some(r)
  {
    assert RestsWell(c, s.db, r);
    var m := Pauses(s.db, r)[|s.db.runs[r].approved|];
    PausedInLog(LogOf(s.db, r), m);
    l := Resolve(request, m.review, true);
  }

  lemma GateStep(c: Config, s: State, r: nat, w: nat, id: nat) returns (l: Label)
    requires r in s.db.runs && RowOk(c, s.db, s.claims, r) && InHand(c, s, r)
    requires s.charge[r] == ByWorker(w) && s.workers[w].Announced? && id !in s.db.reviews && !StuckAtGate(c, s, r)
    ensures Step(c, s, l).Some? && Careful(s, l) && RunOf(s, l) == Some(r)
  {
    hide SubmitLookup, SubmitSelect, SubmitInsert, ReviewerResolves, ReviewerReadsRun, ReviewerRequeues,
         ReviewerAnnouncesApproval, ReviewerWritesDenial, ReviewerAnnouncesDenial, WorkerAnnouncesStart,
         WorkerAnnouncesPause, WorkerAnnouncesBlock, WorkerAnnouncesEnd, WorkerAnnouncesHandOver,
         WorkerClaims, WorkerMarks, WorkerWritesPause, WorkerWritesEnd, WorkerWritesHandOver, StageOf,
         LogOf, RestsWell, ReviewerAgrees, GateOf;
    var g := GateOf(c, r, s.db.runs[r], s.db.runs[r].approved);
    l := if g.Pause? then OpenReview(w, id) else if g.Stop? then WriteBlock(w) else Execute(w);
  }

  lemma WorkerStep(c: Config, s: State, r: nat, w: nat, id: nat) returns (l: Label)
    requires r in s.db.runs && RowOk(c, s.db, s.claims, r) && InHand(c, s, r)
    requires s.charge[r] == ByWorker(w) && id !in s.db.reviews && !StuckAtGate(c, s, r)
    ensures Step(c, s, l).Some? && Careful(s, l) && RunOf(s, l) == Some(r)
  {
    hide SubmitLookup, SubmitSelect, SubmitInsert, ReviewerResolves, ReviewerReadsRun, ReviewerRequeues,
         ReviewerAnnouncesApproval, ReviewerWritesDenial, ReviewerAnnouncesDenial, WorkerOpensReview,
         WorkerWritesBlock, WorkerExecutes, StageOf, LogOf, RestsWell, ReviewerAgrees, StuckAtGate, GateOf;
    match s.workers[w]
    case Claimed(_, _) => l := MarkRunning(w);
    case Marked(_, _) => l := AnnounceStart(w);
    case Announced(_, _) => l := GateStep(c, s, r, w, id);
    case Executing(_, _) => l := WriteEnd(w, false);
    case Pausing(_, _, _) => l := WritePause(w);
    case PauseWritten(_, _) => l := AnnouncePause(w);
    case BlockWritten(_, _) => l := AnnounceBlock(w);
    case EndWritten(_, _) => l := AnnounceEnd(w);
    case HandOverWritten(_) => l := AnnounceHandOver(w);
  }

  lemma ReviewerStep(c: Config, s: State, r: nat, v: nat) returns (l: Label)
    requires r in s.db.runs && RowOk(c, s.db, s.claims, r) && InHand(c, s, r)
    requires s.charge[r] == ByReviewer(v)
    ensures Step(c, s, l).Some? && Careful(s, l) && RunOf(s, l) == Some(r)
  {
    match s.reviewers[v]
    case Resolved(_, _, approve) => l := if approve then ReadRun(v) else WriteDenial(v);
    case RunRead(_, _, _) => l := Requeue(v);
    case DenialWritten(_, _) => l := AnnounceDenial(v);
  }

  lemma NextStep(c: Config, s: State, r: nat, request: nat, id: nat) returns (l: Label)
    requires Inv(c, s) && r in s.db.runs
    requires request !in s.workers && request !in s.reviewers && id !in s.db.reviews
    ensures Measured(c, s, r)
    ensures !Ended(s, r) && !StuckAtGate(c, s, r) ==>
              Step(c, s, l).Some? && Careful(s, l) && RunOf(s, l) == Some(r)
  {
    hide WorkerAgrees, ReviewerAgrees, LogOk, WorkersOf, ReviewersOf, OwedOf, ReviewsOf;
    InvMeasured(c, s, r);
    assert RunOk(c, s, r);
    l := Claim(request, r);
    match s.charge[r]
    case Nobody =>
      if s.db.runs[r].status == REVIEW {
        l := RestingStep(c, s, r, request);
      } else if s.db.runs[r].status == QUEUED {
        ClaimEnabled(c, s, r, request);
      }
    case ByWorker(w) =>
      if !StuckAtGate(c, s, r) {
        l := WorkerStep(c, s, r, w, id);
      }
    case ByReviewer(v) =>
      l := ReviewerStep(c, s, r, v);
  }

  // A run that has not ended and is not stuck has a careful next step; `request` and `id` are
  // a request id and a review id not in use.
  lemma Progress(c: Config, s: State, r: nat, request: nat, id: nat)
    requires Inv(c, s) && r in s.db.runs
    requires request !in s.workers && request !in s.reviewers && id !in s.db.reviews
    ensures Measured(c, s, r)
    ensures !Ended(s, r) && !StuckAtGate(c, s, r) ==>
              exists l :: Step(c, s, l).Some? && Careful(s, l) && RunOf(s, l) == Some(r)
  {
    var l := NextStep(c, s, r, request, id);
  }

  // A log that closes a run as blocked has a denial or a blocking hook in it.
  lemma {:induction false} BlockedBy(log: seq<Event>)
    requires StageOf(log).kind == Closed(BLOCKED)
    ensures exists i :: 0 <= i < |log| && (log[i].Denied? || log[i].HookBlocked?)
  {
    if |log| > 0 {
      var front, e := log[..|log| - 1], log[|log| - 1];
      if StageOf(front).kind == Closed(BLOCKED) && e.Approved? {
        BlockedBy(front);
        var i :| 0 <= i < |front| && (front[i].Denied? || front[i].HookBlocked?);
        assert log[i] == front[i];
      } else {
        assert log[|log| - 1].Denied? || log[|log| - 1].HookBlocked?;
      }
    }
  }

  // The statuses a log can close a run with.
  lemma {:induction false} EndStatuses(log: seq<Event>)
    ensures StageOf(log).kind.Closed? ==> StageOf(log).kind.status in {COMPLETED, FAILED, RUNNING, BLOCKED}
  {
    if |log| > 0 {
      EndStatuses(log[..|log| - 1]);
    }
  }

  lemma EndedStage(c: Config, s: State, r: nat)
    requires r in s.db.runs && r in s.charge && Ended(s, r)
    requires RowOk(c, s.db, s.claims, r) && InHand(c, s, r)
    ensures s.db.runs[r].status in {COMPLETED, FAILED, RUNNING, BLOCKED}
    ensures StageOf(LogOf(s.db, r)).kind == Closed(s.db.runs[r].status)
  {
    assert RestsWell(c, s.db, r);
    EndStatuses(LogOf(s.db, r));
  }

  lemma NothingDenied(c: Config, s: State, r: nat)
    requires r in s.db.runs && r in s.charge && Ended(s, r)
    requires RowOk(c, s.db, s.claims, r) && InHand(c, s, r) && LogOk(s, r)
    requires forall id :: id in s.db.reviews && s.db.reviews[id].run == r ==> s.db.reviews[id].state != Refused
    ensures forall m :: Denied(m) !in LogOf(s.db, r)
  {
    assert RestsWell(c, s.db, r);
    var ps, k := Pauses(s.db, r), |s.db.runs[r].approved|;
    assert |ps| == k;
    assert ps[..k] == ps;
  }

  // If no review of it was refused, a run that has ended was executed, or handed to
  // Temporal, or stopped by a block hook.
  lemma ApprovedRunsEndWell(c: Config, s: State, r: nat)
    requires Inv(c, s) && r in s.db.runs && r in s.charge && Ended(s, r)
    requires forall id :: id in s.db.reviews && s.db.reviews[id].run == r ==> s.db.reviews[id].state != Refused
    ensures var log, status := LogOf(s.db, r), s.db.runs[r].status;
            && status in {COMPLETED, FAILED, RUNNING, BLOCKED}
            && StageOf(log).kind == Closed(status)
            && (status == BLOCKED ==> exists i :: 0 <= i < |log| && log[i].HookBlocked?)
  {
    InvRun(c, s, r);
    EndedStage(c, s, r);
    var log := LogOf(s.db, r);
    if s.db.runs[r].status == BLOCKED {
      BlockedBy(log);
      NothingDenied(c, s, r);
      var i :| 0 <= i < |log| && (log[i].Denied? || log[i].HookBlocked?);
      assert log[i] in log;
    }
  }

  // --- Whole executions ----------------------------------------------------------------

  lemma InsertKeeps(c: Config, s: State, l: Label, r: nat)
    requires OfSubmit(l) && Step(c, s, l).Some? && r in s.db.runs
    ensures r in Step(c, s, l).value.db.runs && Step(c, s, l).value.db.runs[r] == s.db.runs[r]
  {
    if l.Lookup? || l.SelectKey? {
      LookupShape(c, s, l);
    }
  }

  lemma DeploymentKept(c: Config, s: State, l: Label, r: nat)
    requires Step(c, s, l).Some? && r in s.db.runs
    ensures r in Step(c, s, l).value.db.runs && Step(c, s, l).value.db.runs[r].deployment == s.db.runs[r].deployment
  {
    hide Step;
    if OfSubmit(l) {
      InsertKeeps(c, s, l, r);
    } else {
      Keys.OtherStepKeepsRuns(c, s, l);
    }
  }

  // A run that a step brings into being was inserted by it, and no other step is on it.
  lemma NewRunOfStep(c: Config, s: State, l: Label, r: nat)
    requires Inv(c, s) && Step(c, s, l).Some? && Careful(s, l) && r !in s.db.runs
    ensures RunOf(s, l) != Some(r)
    ensures r in Step(c, s, l).value.db.runs ==> l.Insert? && l.run == r
  {
    if OfSubmit(l) {
      if l.Lookup? || l.SelectKey? {
        LookupShape(c, s, l);
      }
    } else {
      hide Step, RunOf, Inv, SameRun, SameActors, SameReviews;
      StepKeepsInv(c, s, l);
    }
  }

  lemma WorkBegins(c: Config, s: State, l: Label, r: nat)
    requires Inv(c, s) && Step(c, s, l).Some? && Careful(s, l) && r !in s.db.runs
    ensures RunOf(s, l) != Some(r)
    ensures var s' := Step(c, s, l).value;
            r in s'.db.runs && Measured(c, s', r) ==>
              Measure(c, s', r) == 10 * |HookIds(c.deployments[s'.db.runs[r].deployment])| + 9
  {
    hide Inv, Measure, Measured;
    NewRunOfStep(c, s, l, r);
    if r in Step(c, s, l).value.db.runs {
      FreshMeasure(c, s, l.submit, r);
    }
  }

  // The steps an execution takes on a run, with what is left of its measure.
  lemma {:induction false} WorkDone(c: Config, s: State, ls: seq<Label>, patient: bool, r: nat, s': State)
    requires Inv(c, s) && Legal(c, s, ls, patient) && After(c, s, ls) == Some(s') && r in s'.db.runs
    ensures Measured(c, s', r)
    ensures r in s.db.runs ==>
              && Measured(c, s, r) && s.db.runs[r].deployment == s'.db.runs[r].deployment
              && StepsOn(c, s, ls, r) + Measure(c, s', r) <= Measure(c, s, r)
    ensures r !in s.db.runs ==>
              StepsOn(c, s, ls, r) + Measure(c, s', r) <= 10 * |HookIds(c.deployments[s'.db.runs[r].deployment])| + 9
    decreases |ls|
  {
    hide Inv, Measure, Step, Careful, Patient, RunOf, Measured;
    if |ls| == 0 {
      InvMeasured(c, s, r);
    } else {
      var s1 := Step(c, s, ls[0]).value;
      StepKeepsInv(c, s, ls[0]);
      WorkDone(c, s1, ls[1..], patient, r, s');
      if r in s.db.runs {
        DeploymentKept(c, s, ls[0], r);
        StepBound(c, s, ls[0], r);
      } else {
        WorkBegins(c, s, ls[0], r);
      }
    }
  }

  // No step of a careful request is on the run any more.
  ghost predicate Exhausted(c: Config, s: State, r: nat) {
    forall l :: Step(c, s, l).Some? && Careful(s, l) ==> RunOf(s, l) != Some(r)
  }

  lemma MeasuredCharge(c: Config, s: State, r: nat)
    requires Measured(c, s, r)
    ensures r in s.db.runs && r in s.charge && s.db.runs[r].deployment in c.deployments
  {
  }

  // Every execution takes at most 10 n + 9 steps on a run of a deployment with n hook
  // ids; once no step on it is left, the run is stuck at its gate or has ended, and if no
  // review of it was refused it was executed, handed over or stopped by a block hook.
  lemma MaximalRunsEndWell(c: Config, s: State, ls: seq<Label>, patient: bool, r: nat)
    requires Reached(c, s, ls, patient) && r in s.db.runs
    ensures Measured(c, s, r)
    ensures StepsOn(c, INITIAL, ls, r) <= 10 * |HookIds(c.deployments[s.db.runs[r].deployment])| + 9
    ensures Exhausted(c, s, r) ==> Ended(s, r) || StuckAtGate(c, s, r)
    ensures var log, status := LogOf(s.db, r), s.db.runs[r].status;
            Ended(s, r) && (forall id :: id in s.db.reviews && s.db.reviews[id].run == r ==> s.db.reviews[id].state != Refused) ==>
              && status in {COMPLETED, FAILED, RUNNING, BLOCKED}
              && StageOf(log).kind == Closed(status)
              && (status == BLOCKED ==> exists i :: 0 <= i < |log| && log[i].HookBlocked?)
  {
    hide Inv, Legal, After, Measure, Step, Careful, RunOf, Measured, Ended, StuckAtGate;
    InitialInv(c);
    ReachedInv(c, s, ls, patient);
    WorkDone(c, INITIAL, ls, patient, r, s);
    MeasuredCharge(c, s, r);
    var request := FreeNat(s.workers.Keys + s.reviewers.Keys);
    var id := FreeNat(s.db.reviews.Keys);
    Progress(c, s, r, request, id);
    if Ended(s, r) && forall id :: id in s.db.reviews && s.db.reviews[id].run == r ==> s.db.reviews[id].state != Refused {
      ApprovedRunsEndWell(c, s, r);
    }
  }
}
