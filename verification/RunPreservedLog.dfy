// Worker steps that claim, open a review or append an event keep the invariant.
module RunPreservedLog {
  import opened Outcomes
  import opened RunLog
  import opened RunTables
  import opened RunProtocol
  import opened RunInvariant
  import opened RunPreserved
  import Hooks = RuntimeHooks

  // --- Appending an event other than an approval -----------------------------

  lemma MatchedAppend(log: seq<Event>, e: Event)
    requires ApprovalsMatched(log)
    requires e.Approved? ==> Paused(e.mark) in log
    requires e.Approved? ==> forall i :: 0 <= i < |log| && log[i].Approved? ==> log[i].mark.review != e.mark.review
    ensures ApprovalsMatched(log + [e])
  {
    var log' := log + [e];
    forall i | 0 <= i < |log'| && log'[i].Approved?
      ensures Paused(log'[i].mark) in log'[..i]
    {
      assert log'[..i] == log[..i];
    }
  }

  lemma LogOfAppend(db: Db, r: nat, e: Event)
    ensures LogOf(AppendEvent(db, r, e), r) == LogOf(db, r) + [e]
    ensures StageOf(LogOf(AppendEvent(db, r, e), r)) == Advance(StageOf(LogOf(db, r)), e)
  {
    StageOfAppend(LogOf(db, r), e);
  }

  lemma LogAfterEvent(s: State, s': State, r: nat, e: Event)
    requires r in s.db.runs && r in s'.db.runs && LogOk(s, r) && !e.Approved?
    requires LogOf(s'.db, r) == LogOf(s.db, r) + [e]
    requires Pauses(s.db, r) <= Pauses(s'.db, r)
    requires s'.db.runs[r].approved == s.db.runs[r].approved && s'.owed == s.owed
    requires e.Denied? ==> e.mark in Pauses(s.db, r) && e.mark !in Pauses(s.db, r)[..|s.db.runs[r].approved|]
    ensures LogOk(s', r)
  {
    MatchedAppend(LogOf(s.db, r), e);
    var k := |s.db.runs[r].approved|;
    assert Pauses(s.db, r)[..k] == Pauses(s'.db, r)[..k];
    forall m | Denied(m) in LogOf(s'.db, r)
      ensures m in Pauses(s'.db, r)
    {
      var i :| 0 <= i < |Pauses(s.db, r)| && Pauses(s.db, r)[i] == m;
      assert Pauses(s'.db, r)[i] == m;
    }
    forall i | 0 <= i < k
      ensures Approved(Pauses(s'.db, r)[i]) in LogOf(s'.db, r) <==> Pauses(s'.db, r)[i].review !in s'.owed
    {
      assert Pauses(s'.db, r)[i] == Pauses(s.db, r)[i];
    }
  }

  lemma RowAfterEvent(c: Config, db: Db, claims: map<nat, nat>, r: nat, e: Event)
    requires r in db.runs && RowOk(c, db, claims, r)
    requires Pauses(AppendEvent(db, r, e), r) == Pauses(db, r)
             || (&& e.Paused?
                 && Pauses(AppendEvent(db, r, e), r) == Pauses(db, r) + [e.mark]
                 && ReviewIs(db, e.mark, r, Waiting)
                 && forall i :: 0 <= i < |Pauses(db, r)| ==> Pauses(db, r)[i].review != e.mark.review)
    ensures RowOk(c, AppendEvent(db, r, e), claims, r)
  {
  }

  // --- The start ------------------------------------------------------------

  lemma LocalStart(c: Config, s: State, s': State, w: nat, r: nat)
    requires Homes(c, s) && WorkerAnnouncesStart(s, w) == Some(s') && r == s.workers[w].run && RunOk(c, s, r)
    ensures RunOk(c, s', r)
    ensures WorkerMoved(s, s', w, r)
  {
    hide GateOf, HookIds, ReviewerAgrees;
    LogOfAppend(s.db, r, Started);
    RowAfterEvent(c, s.db, s.claims, r, Started);
    LogAfterEvent(s, s', r, Started);
    assert s.charge[r] == ByWorker(w);
    assert s'.charge == s.charge[r := s'.charge[r]];
    assert s'.claims == s.claims[r := s'.claims[r]];
    assert s'.db.runs == s.db.runs[r := s'.db.runs[r]];
    WorkerSide(c, s, s', w, r, 0);
    assert InHand(c, s', r);
    assert ReviewsOf(s', r);
  }

  lemma KeepsStart(c: Config, s: State, w: nat)
    requires Inv(c, s) && WorkerAnnouncesStart(s, w).Some?
    ensures Inv(c, WorkerAnnouncesStart(s, w).value)
    ensures Only(s, WorkerAnnouncesStart(s, w).value, s.workers[w].run)
  {
    var s', r := WorkerAnnouncesStart(s, w).value, s.workers[w].run;
    LocalStart(c, s, s', w, r);
    WorkerOnly(s, s', w, r, 0);
    WorkerHomes(c, s, s', w, r, 0);
    Compose(c, s, s', r);
  }

  // --- The last event of a request --------------------------------------------

  // What the worker leaves behind rests well.
  ghost predicate LeavesWell(c: Config, s: State, w: nat, r: nat, e: Event) {
    && At(s, w) && s.workers[w].run == r && r in s.db.runs
    && s.db.runs[r].deployment in c.deployments
    && !e.Approved? && !e.Denied?
    && Pauses(s.db, r) <= Pauses(AppendEvent(s.db, r, e), r)
    && RowOk(c, AppendEvent(s.db, r, e), s.claims, r)
    && RestsWell(c, AppendEvent(s.db, r, e), r)
    && (s.workers[w].Pausing? || s.workers[w].PauseWritten? ==> e == Paused(s.workers[w].mark))
  }

  lemma LeavePauses(db: Db, r: nat, m: Mark)
    requires !StageOf(LogOf(AppendEvent(db, r, Paused(m)), r)).kind.Broken?
    ensures m in Pauses(AppendEvent(db, r, Paused(m)), r)
  {
    LogOfAppend(db, r, Paused(m));
    var ps := Pauses(db, r);
    assert (ps + [m])[|ps|] == m;
  }

  lemma LeaveReviews(c: Config, s: State, s': State, w: nat, r: nat, e: Event)
    requires LeavesWell(c, s, w, r, e) && s' == Leaves(s, w, e) && ReviewsOf(s, r)
    requires r in s.charge && s.charge[r] == ByWorker(w)
    ensures ReviewsOf(s', r)
  {
    LogOfAppend(s.db, r, e);
    var ps, ps' := Pauses(s.db, r), Pauses(s'.db, r);
    forall id | id in s'.db.reviews && s'.db.reviews[id].run == r
      ensures Mark(id, s'.db.reviews[id].hook) in ps'
    {
      var m := Mark(id, s.db.reviews[id].hook);
      if m in ps {
        var i :| 0 <= i < |ps| && ps[i] == m;
        assert ps'[i] == m;
      } else {
        assert AboutToAnnounce(s, r, m);
        assert e == Paused(m);
        assert RowOk(c, s'.db, s.claims, r);
        LeavePauses(s.db, r, m);
      }
    }
  }

  lemma LocalLeave(c: Config, s: State, s': State, w: nat, r: nat, e: Event)
    requires Homes(c, s) && LeavesWell(c, s, w, r, e) && s' == Leaves(s, w, e) && RunOk(c, s, r)
    ensures RunOk(c, s', r)
    ensures WorkerMoved(s, s', w, r)
  {
    hide GateOf, HookIds, ReviewerAgrees;
    LogOfAppend(s.db, r, e);
    LogAfterEvent(s, s', r, e);
    assert s.charge[r] == ByWorker(w);
    assert s'.claims == s.claims[r := s'.claims[r]];
    assert s'.db.runs == s.db.runs[r := s'.db.runs[r]];
    WorkerSide(c, s, s', w, r, 0);
    LeaveReviews(c, s, s', w, r, e);
    assert InHand(c, s', r);
  }

  lemma KeepsLeave(c: Config, s: State, w: nat, e: Event)
    requires Inv(c, s) && At(s, w) && LeavesWell(c, s, w, s.workers[w].run, e)
    ensures Inv(c, Leaves(s, w, e)) && Only(s, Leaves(s, w, e), s.workers[w].run)
  {
    var s', r := Leaves(s, w, e), s.workers[w].run;
    LocalLeave(c, s, s', w, r, e);
    WorkerOnly(s, s', w, r, 0);
    WorkerHomes(c, s, s', w, r, 0);
    Compose(c, s, s', r);
  }

  lemma PauseLeavesWell(c: Config, s: State, w: nat, r: nat)
    requires WorkerAnnouncesPause(s, w).Some? && r == s.workers[w].run && RunOk(c, s, r)
    ensures LeavesWell(c, s, w, r, Paused(s.workers[w].mark))
  {
    var m := s.workers[w].mark;
    LogOfAppend(s.db, r, Paused(m));
    assert s.charge[r] == ByWorker(w);
    RowAfterEvent(c, s.db, s.claims, r, Paused(m));
  }

  lemma KeepsAnnouncePause(c: Config, s: State, w: nat)
    requires Inv(c, s) && WorkerAnnouncesPause(s, w).Some?
    ensures Inv(c, WorkerAnnouncesPause(s, w).value)
    ensures Only(s, WorkerAnnouncesPause(s, w).value, s.workers[w].run)
  {
    PauseLeavesWell(c, s, w, s.workers[w].run);
    KeepsLeave(c, s, w, Paused(s.workers[w].mark));
  }

  lemma EndLeavesWell(c: Config, s: State, w: nat, r: nat, e: Event)
    requires At(s, w) && r == s.workers[w].run && RunOk(c, s, r)
    requires r in s.charge && s.charge[r] == ByWorker(w)
    requires match s.workers[w]
             case BlockWritten(_, h) => e == HookBlocked(h)
             case EndWritten(_, ok) => e == Finished(ok)
             case HandOverWritten(_) => e == TemporalStarted
             case _ => false
    ensures LeavesWell(c, s, w, r, e)
  {
    LogOfAppend(s.db, r, e);
    RowAfterEvent(c, s.db, s.claims, r, e);
  }

  lemma KeepsAnnounceBlock(c: Config, s: State, w: nat)
    requires Inv(c, s) && WorkerAnnouncesBlock(s, w).Some?
    ensures Inv(c, WorkerAnnouncesBlock(s, w).value)
    ensures Only(s, WorkerAnnouncesBlock(s, w).value, s.workers[w].run)
  {
    EndLeavesWell(c, s, w, s.workers[w].run, HookBlocked(s.workers[w].hook));
    KeepsLeave(c, s, w, HookBlocked(s.workers[w].hook));
  }

  lemma KeepsAnnounceEnd(c: Config, s: State, w: nat)
    requires Inv(c, s) && WorkerAnnouncesEnd(s, w).Some?
    ensures Inv(c, WorkerAnnouncesEnd(s, w).value)
    ensures Only(s, WorkerAnnouncesEnd(s, w).value, s.workers[w].run)
  {
    EndLeavesWell(c, s, w, s.workers[w].run, Finished(s.workers[w].ok));
    KeepsLeave(c, s, w, Finished(s.workers[w].ok));
  }

  lemma KeepsAnnounceHandOver(c: Config, s: State, w: nat)
    requires Inv(c, s) && WorkerAnnouncesHandOver(s, w).Some?
    ensures Inv(c, WorkerAnnouncesHandOver(s, w).value)
    ensures Only(s, WorkerAnnouncesHandOver(s, w).value, s.workers[w].run)
  {
    EndLeavesWell(c, s, w, s.workers[w].run, TemporalStarted);
    KeepsLeave(c, s, w, TemporalStarted);
  }

  // --- Opening a review -------------------------------------------------------

  lemma OpenReviewRow(c: Config, s: State, s': State, w: nat, r: nat, id: nat)
    requires WorkerOpensReview(c, s, w, id) == Some(s') && r == s.workers[w].run && RowOk(c, s.db, s.claims, r)
    ensures RowOk(c, s'.db, s'.claims, r)
  {
  }

  lemma OpenReviewReviews(c: Config, s: State, s': State, w: nat, r: nat, id: nat)
    requires WorkerOpensReview(c, s, w, id) == Some(s') && r == s.workers[w].run && ReviewsOf(s, r)
    requires r in s.charge && s.charge[r] == ByWorker(w)
    ensures ReviewsOf(s', r)
  {
  }

  lemma OpenReviewHand(c: Config, s: State, s': State, w: nat, r: nat, id: nat)
    requires WorkerOpensReview(c, s, w, id) == Some(s') && r == s.workers[w].run
    requires RowOk(c, s.db, s.claims, r) && InHand(c, s, r)
    requires r in s.charge && s.charge[r] == ByWorker(w)
    ensures InHand(c, s', r)
  {
    var row := s.db.runs[r];
    Hooks.GateStopsAtUnapproved(c.deployments[row.deployment].hooks, ContextOf(c, r, row, s.workers[w].approved));
    assert WorkerAgrees(c, s'.db, s'.workers[w], r);
  }

  lemma LocalOpenReview(c: Config, s: State, s': State, w: nat, r: nat, id: nat)
    requires Homes(c, s) && WorkerOpensReview(c, s, w, id) == Some(s') && r == s.workers[w].run && RunOk(c, s, r)
    ensures WorkerMoved(s, s', w, r) && ReviewAdded(s, s', r, id)
    ensures RunOk(c, s', r)
  {
    assert s.charge[r] == ByWorker(w);
    assert s'.charge == s.charge[r := s'.charge[r]];
    assert s'.claims == s.claims[r := s'.claims[r]];
    assert s'.db.runs == s.db.runs[r := s'.db.runs[r]];
    WorkerSide(c, s, s', w, r, id);
    OpenReviewRow(c, s, s', w, r, id);
    LogSame(s, s', r);
    OpenReviewReviews(c, s, s', w, r, id);
    OpenReviewHand(c, s, s', w, r, id);
  }

  lemma KeepsOpenReview(c: Config, s: State, w: nat, id: nat)
    requires Inv(c, s) && WorkerOpensReview(c, s, w, id).Some?
    ensures Inv(c, WorkerOpensReview(c, s, w, id).value)
    ensures Only(s, WorkerOpensReview(c, s, w, id).value, s.workers[w].run)
  {
    var s', r := WorkerOpensReview(c, s, w, id).value, s.workers[w].run;
    LocalOpenReview(c, s, s', w, r, id);
    WorkerOnly(s, s', w, r, id);
    WorkerHomes(c, s, s', w, r, id);
    Compose(c, s, s', r);
  }

  // --- Claiming -----------------------------------------------------------------

  // Nobody has a queued run in hand.
  lemma QueuedRests(c: Config, s: State, r: nat)
    requires r in s.db.runs && RowOk(c, s.db, s.claims, r) && InHand(c, s, r)
    requires s.db.runs[r].status == QUEUED
    ensures s.charge[r] == Nobody
  {
  }

  lemma ClaimRow(c: Config, s: State, s': State, w: nat, r: nat)
    requires WorkerClaims(s, w, r) == Some(s') && RowOk(c, s.db, s.claims, r)
    ensures RowOk(c, s'.db, s'.claims, r)
  {
  }

  lemma LocalClaim(c: Config, s: State, s': State, w: nat, r: nat)
    requires Homes(c, s) && WorkerClaims(s, w, r) == Some(s') && RunOk(c, s, r)
    ensures WorkerMoved(s, s', w, r)
    ensures RunOk(c, s', r)
  {
    hide StageOf, GateOf, HookIds, ReviewerAgrees;
    QueuedRests(c, s, r);
    WorkerSide(c, s, s', w, r, 0);
    LogSame(s, s', r);
    ReviewsSame(s, s', r, w);
    ClaimRow(c, s, s', w, r);
    assert WorkerAgrees(c, s'.db, s'.workers[w], r);
    assert InHand(c, s', r);
  }

  lemma KeepsClaim(c: Config, s: State, w: nat, r: nat)
    requires Inv(c, s) && WorkerClaims(s, w, r).Some?
    ensures Inv(c, WorkerClaims(s, w, r).value)
    ensures Only(s, WorkerClaims(s, w, r).value, r)
  {
    var s' := WorkerClaims(s, w, r).value;
    LocalClaim(c, s, s', w, r);
    WorkerOnly(s, s', w, r, 0);
    WorkerHomes(c, s, s', w, r, 0);
    Compose(c, s, s', r);
  }
}
