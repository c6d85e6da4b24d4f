// The outbox log of one run: its events, the languages it ranges over, and the
// run status it tells (workers/runtime.py:37-122, runtime/hooks.py:135-153,
// 181-194, 276-296, 324-342).
module RunLog {
  datatype RunStatus = PENDING | QUEUED | RUNNING | REVIEW | COMPLETED | FAILED | BLOCKED | CANCELLED

  // The set completed_at goes with (store.py:1048), and TERMINAL_RUN_STATUSES.
  predicate Terminal(s: RunStatus) {
    s in {COMPLETED, FAILED, BLOCKED, REVIEW, CANCELLED}
  }

  // ACTIVE_RUN_STATUSES of the dispatcher.
  predicate Active(s: RunStatus) {
    s in {PENDING, QUEUED, RUNNING}
  }

  // A pause: the review item and the hook that asked for it.
  datatype Mark = Mark(review: nat, hook: string)

  datatype Event =
    | Started
    | Paused(mark: Mark)
    | Approved(mark: Mark)
    | Denied(mark: Mark)
    | HookBlocked(hook: string)
    | Finished(ok: bool)
    | TemporalStarted

  // Events after which a started run gets no further event.
  predicate Ends(e: Event) {
    e.HookBlocked? || e.Finished? || e.TemporalStarted?
  }

  function EndStatus(e: Event): RunStatus
    requires Ends(e)
  {
    match e
    case Finished(ok) => if ok then COMPLETED else FAILED
    case HookBlocked(_) => BLOCKED
    case TemporalStarted => RUNNING
  }

  // --- Reading a log from its end -----------------------------------------

  // Where the log stands when approvals are set aside: they may be announced late.
  datatype Kind =
    | Ready                     // waiting for a worker or a review
    | Live                      // a worker has started it
    | Closed(status: RunStatus) // no further event
    | Broken

  datatype Stage = Stage(kind: Kind, pauses: seq<Mark>)

  predicate LastPause(st: Stage, m: Mark) {
    |st.pauses| > 0 && st.pauses[|st.pauses| - 1] == m
  }

  function Advance(st: Stage, e: Event): Stage {
    if e.Approved? || st.kind.Broken? then st
    else if e.Started? && st.kind.Ready? then st.(kind := Live)
    else if e.Paused? && st.kind.Live? then Stage(Ready, st.pauses + [e.mark])
    else if e.Denied? && st.kind.Ready? && LastPause(st, e.mark) then st.(kind := Closed(BLOCKED))
    else if Ends(e) && st.kind.Live? then st.(kind := Closed(EndStatus(e)))
    else st.(kind := Broken)
  }

  function StageOf(log: seq<Event>): Stage {
    if |log| == 0 then Stage(Ready, [])
    else Advance(StageOf(log[..|log| - 1]), log[|log| - 1])
  }

  lemma StageOfAppend(log: seq<Event>, e: Event)
    ensures StageOf(log + [e]) == Advance(StageOf(log), e)
  {
    assert (log + [e])[..|log|] == log;
  }

  // The status a log tells, wherever its approvals stand.
  function LogStatus(log: seq<Event>): RunStatus {
    var st := StageOf(log);
    match st.kind
    case Ready =>
      if |st.pauses| == 0 || Approved(st.pauses[|st.pauses| - 1]) in log then QUEUED else REVIEW
    case Live => RUNNING
    case Closed(s) => s
    case Broken => CANCELLED
  }

  // The status the last event tells.
  function LastStatus(log: seq<Event>): RunStatus {
    if |log| == 0 then QUEUED
    else match log[|log| - 1]
      case Started => RUNNING
      case Paused(_) => REVIEW
      case Approved(_) => QUEUED
      case Denied(_) => BLOCKED
      case HookBlocked(_) => BLOCKED
      case Finished(ok) => if ok then COMPLETED else FAILED
      case TemporalStarted => RUNNING
  }

  // --- The two languages --------------------------------------------------

  // A prefix of (started paused approved)* started (end | paused denied).
  predicate OrderedLog(log: seq<Event>) {
    |log| == 0
    || (&& log[0].Started?
        && (|log| == 1
            || (Ends(log[1]) && |log| == 2)
            || (&& log[1].Paused?
                && (|log| == 2
                    || (log[2] == Denied(log[1].mark) && |log| == 3)
                    || (log[2] == Approved(log[1].mark) && OrderedLog(log[3..]))))))
  }

  // A prefix of (started paused)* started (end | paused denied).
  predicate LooseLog(log: seq<Event>) {
    |log| == 0
    || (&& log[0].Started?
        && (|log| == 1
            || (Ends(log[1]) && |log| == 2)
            || (&& log[1].Paused?
                && (|log| == 2
                    || (log[2] == Denied(log[1].mark) && |log| == 3)
                    || LooseLog(log[2..])))))
  }

  function WithoutApprovals(log: seq<Event>): seq<Event> {
    if |log| == 0 then []
    else WithoutApprovals(log[..|log| - 1]) + (if log[|log| - 1].Approved? then [] else [log[|log| - 1]])
  }

  // Every approval comes after its pause, and each review is approved once.
  ghost predicate ApprovalsMatched(log: seq<Event>) {
    && (forall i :: 0 <= i < |log| && log[i].Approved? ==> Paused(log[i].mark) in log[..i])
    && (forall i, j :: 0 <= i < j < |log| && log[i].Approved? && log[j].Approved? ==>
          log[i].mark.review != log[j].mark.review)
  }

  // --- Appending to an ordered log ----------------------------------------

  predicate Follows(log: seq<Event>, e: Event) {
    if |log| == 0 then e.Started?
    else match log[|log| - 1]
      case Started => e.Paused? || Ends(e)
      case Paused(m) => e == Approved(m) || e == Denied(m)
      case Approved(_) => e.Started?
      case _ => false
  }

  lemma {:induction false} OrderedAppend(log: seq<Event>, e: Event)
    requires OrderedLog(log)
    ensures OrderedLog(log + [e]) <==> Follows(log, e)
  {
    if |log| > 2 && log[2] == Approved(log[1].mark) {
      OrderedAppend(log[3..], e);
      assert (log + [e])[3..] == log[3..] + [e];
      assert (log + [e])[2] == log[2];
      if |log| > 3 {
        assert log[3..][|log| - 4] == log[|log| - 1];
      }
    } else if |log| == 2 && log[1].Paused? {
      assert (log + [e])[3..] == [];
    }
  }

  lemma {:induction false} OrderedPrefix(log: seq<Event>)
    requires OrderedLog(log) && |log| > 0
    ensures OrderedLog(log[..|log| - 1])
    ensures Follows(log[..|log| - 1], log[|log| - 1])
  {
    var front := log[..|log| - 1];
    if |log| > 3 {
      OrderedPrefix(log[3..]);
      assert log[3..][..|log| - 4] == front[3..];
      assert log[3..][|log| - 4] == log[|log| - 1];
      assert OrderedLog(front);
    }
    assert front + [log[|log| - 1]] == log;
    OrderedAppend(front, log[|log| - 1]);
  }

  // --- Relating the readings ----------------------------------------------

  lemma {:induction false} OrderedStage(log: seq<Event>)
    requires OrderedLog(log)
    ensures var st := StageOf(log);
            if |log| == 0 then st.kind.Ready? && st.pauses == []
            else match log[|log| - 1]
              case Started => st.kind.Live?
              case Paused(m) => st.kind.Ready? && LastPause(st, m)
              case Approved(m) => st.kind.Ready? && LastPause(st, m)
              case _ => st.kind == Closed(LastStatus(log))
  {
    if |log| > 0 {
      OrderedPrefix(log);
      OrderedStage(log[..|log| - 1]);
    }
  }

  // Every approved mark of a log whose approvals follow their pauses is one of its pauses.
  lemma {:induction false} ApprovedIsPaused(log: seq<Event>, m: Mark)
    requires OrderedLog(log) && Approved(m) in log
    ensures |log| > 0 && log[|log| - 1].Paused? ==> m in StageOf(log[..|log| - 1]).pauses
    ensures m in StageOf(log).pauses
  {
    var front, e := log[..|log| - 1], log[|log| - 1];
    OrderedPrefix(log);
    OrderedStage(front);
    OrderedStage(log);
    if Approved(m) in front {
      ApprovedIsPaused(front, m);
      var i :| 0 <= i < |StageOf(front).pauses| && StageOf(front).pauses[i] == m;
      assert StageOf(log).pauses[i] == m;
    } else {
      assert e == Approved(m);
    }
  }

  // In an ordered log whose pauses are distinct, the last event alone tells the status.
  lemma OrderedLogStatus(log: seq<Event>)
    requires OrderedLog(log)
    requires var ps := StageOf(log).pauses; forall i, j :: 0 <= i < j < |ps| ==> ps[i] != ps[j]
    ensures LogStatus(log) == LastStatus(log)
  {
    OrderedStage(log);
    var ps := StageOf(log).pauses;
    if |log| > 0 && log[|log| - 1].Paused? && Approved(log[|log| - 1].mark) in log {
      var front, m := log[..|log| - 1], log[|log| - 1].mark;
      OrderedPrefix(log);
      OrderedStage(front);
      var earlier := StageOf(front).pauses;
      assert forall i :: 0 <= i < |earlier| ==> earlier[i] == ps[i] && ps[i] != ps[|ps| - 1];
      ApprovedIsPaused(log, m);
      assert false;
    }
  }

  predicate LooseFollows(log: seq<Event>, e: Event) {
    if |log| == 0 then e.Started?
    else match log[|log| - 1]
      case Started => e.Paused? || Ends(e)
      case Paused(m) => e.Started? || e == Denied(m)
      case _ => false
  }

  lemma {:induction false} LooseAppend(log: seq<Event>, e: Event)
    requires LooseLog(log)
    ensures LooseLog(log + [e]) <==> LooseFollows(log, e)
  {
    if |log| > 1 && log[1].Paused? && !(|log| == 3 && log[2] == Denied(log[1].mark)) {
      if |log| == 2 {
        assert (log + [e])[2..] == [e];
      } else {
        LooseAppend(log[2..], e);
        assert (log + [e])[2..] == log[2..] + [e];
        assert log[2..][|log| - 3] == log[|log| - 1];
      }
    }
  }

  lemma {:induction false} LoosePrefix(log: seq<Event>, e: Event)
    requires !LooseLog(log)
    ensures !LooseLog(log + [e])
  {
    if |log| >= 2 && log[0].Started? && log[1].Paused? {
      assert (log + [e])[2..] == log[2..] + [e];
      if |log| > 2 {
        LoosePrefix(log[2..], e);
      }
    }
  }

  // The stage reading and the grammar agree: setting approvals aside, a log is
  // well formed exactly if it is in the loose language.
  lemma {:induction false} StageIsLooseLog(log: seq<Event>)
    ensures !StageOf(log).kind.Broken? <==> LooseLog(WithoutApprovals(log))
    ensures var w := WithoutApprovals(log); var st := StageOf(log);
            !st.kind.Broken? ==>
              && (st.kind.Ready? <==> |w| == 0 || w[|w| - 1].Paused?)
              && (st.kind.Live? <==> |w| > 0 && w[|w| - 1].Started?)
              && (st.kind.Ready? && |w| > 0 ==> LastPause(st, w[|w| - 1].mark))
              && (st.kind.Ready? && |w| == 0 ==> |st.pauses| == 0)
  {
    if |log| > 0 {
      var front, e := log[..|log| - 1], log[|log| - 1];
      StageIsLooseLog(front);
      if !e.Approved? {
        var w := WithoutApprovals(front);
        assert WithoutApprovals(log) == w + [e];
        if LooseLog(w) {
          LooseAppend(w, e);
        } else {
          LoosePrefix(w, e);
        }
      } else {
        assert WithoutApprovals(log) == WithoutApprovals(front);
      }
    }
  }
}
