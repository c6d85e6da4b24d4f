// The cursor of the event outbox and the event stream that polls it
// (intelliguard/persistence/store.py:1089-1109, runtime/event_bus.py:32-39,
// api/main.py:1336-1348).
module EventStream {
  import opened Outcomes

  // An outbox row; rows are ordered by created_at and outbox id.
  datatype Entry = Entry(id: nat, text: string)

  // Ids are unique.
  ghost predicate Distinct(log: seq<Entry>) {
    forall i, j :: 0 <= i < j < |log| ==> log[i].id != log[j].id
  }

  function Prefix(log: seq<Entry>, limit: nat): seq<Entry> {
    if |log| <= limit then log else log[..limit]
  }

  // The first position of an id.
  function Position(rows: seq<Entry>, id: nat): (p: Option<nat>)
    ensures p.Some? ==> p.value < |rows| && rows[p.value].id == id
    ensures p.None? ==> forall i :: 0 <= i < |rows| ==> rows[i].id != id
  {
    if |rows| == 0 then None
    else if rows[0].id == id then Some(0)
    else
      var p := Position(rows[1..], id);
      assert p.None? ==> forall i :: 0 < i < |rows| ==> rows[i] == rows[1..][i - 1];
      if p.Some? then Some(p.value + 1) else None
  }

  // The rows after the row of that id, or all of them if it is not there.
  function After(rows: seq<Entry>, id: nat): seq<Entry> {
    if Position(rows, id).Some? then rows[Position(rows, id).value + 1..] else rows
  }

  // The limit is applied before the cursor is looked for.
  function ListSince(log: seq<Entry>, cursor: Option<nat>, limit: nat): seq<Entry> {
    match cursor
    case None => Prefix(log, limit)
    case Some(id) => After(Prefix(log, limit), id)
  }

  method ListRuntimeOutboxEvents(log: seq<Entry>, cursor: Option<nat>, limit: nat) returns (rows: seq<Entry>)
    ensures rows == ListSince(log, cursor, limit)
  {
    rows := if |log| <= limit then log else log[..limit];
    assert rows == Prefix(log, limit);
    hide Prefix;
    if cursor.Some? {
      for i := 0 to |rows|
        invariant Position(rows, cursor.value) ==
                  if Position(rows[i..], cursor.value).Some? then Some(i + Position(rows[i..], cursor.value).value) else None
      {
        assert rows[i..][1..] == rows[i + 1..];
        if rows[i].id == cursor.value {
          return rows[i + 1..];
        }
      }
    }
  }

  // --- The stream --------------------------------------------------------------------

  // What a poll sees: the log of the run, and whether its status ends the stream.
  datatype Poll = Poll(log: seq<Entry>, over: bool)

  function NextCursor(cursor: Option<nat>, rows: seq<Entry>): Option<nat> {
    if |rows| == 0 then cursor else Some(rows[|rows| - 1].id)
  }

  // The polls that are made: up to the first that sees a final status.
  function Made(polls: seq<Poll>): (made: seq<Poll>)
    ensures made <= polls
  {
    if |polls| == 0 then []
    else if polls[0].over then [polls[0]]
    else [polls[0]] + Made(polls[1..])
  }

  function Emitted(polls: seq<Poll>, cursor: Option<nat>, limit: nat): seq<Entry> {
    if |polls| == 0 then []
    else
      var rows := ListSince(polls[0].log, cursor, limit);
      rows + (if polls[0].over then [] else Emitted(polls[1..], NextCursor(cursor, rows), limit))
  }

  lemma EmittedStep(polls: seq<Poll>, k: nat, cursor: Option<nat>, limit: nat)
    requires k < |polls|
    ensures var rows := ListSince(polls[k].log, cursor, limit);
            Emitted(polls[k..], cursor, limit) ==
            rows + (if polls[k].over then [] else Emitted(polls[k + 1..], NextCursor(cursor, rows), limit))
  {
    hide ListSince, NextCursor;
    assert polls[k..][1..] == polls[k + 1..];
  }

  lemma EmittedNothing(cursor: Option<nat>, limit: nat)
    ensures Emitted([], cursor, limit) == []
  {
  }

  // Setting the cursor at every event sets it to the last one.
  lemma CursorSteps(cursor: Option<nat>, rows: seq<Entry>)
    ensures NextCursor(cursor, rows[..0]) == cursor
    ensures forall i :: 0 <= i < |rows| ==> NextCursor(cursor, rows[..i + 1]) == Some(rows[i].id)
  {
  }

  method Stream(polls: seq<Poll>, after: Option<nat>, limit: nat) returns (emitted: seq<Entry>)
    ensures emitted == Emitted(polls, after, limit)
  {
    hide Emitted, ListSince, NextCursor;
    var cursor := after;
    emitted := [];
    assert polls[0..] == polls;
    for k := 0 to |polls|
      invariant Emitted(polls, after, limit) == emitted + Emitted(polls[k..], cursor, limit)
    {
      EmittedStep(polls, k, cursor, limit);
      var rows := ListRuntimeOutboxEvents(polls[k].log, cursor, limit);
      CursorSteps(cursor, rows);
      ghost var before, start := emitted, cursor;
      for i := 0 to |rows|
        invariant emitted == before + rows[..i]
        invariant cursor == NextCursor(start, rows[..i])
      {
        cursor := Some(rows[i].id);
        emitted := emitted + [rows[i]];
      }
      assert rows[..|rows|] == rows;
      if polls[k].over {
        return;
      }
    }
    assert polls[|polls|..] == [];
    EmittedNothing(cursor, limit);
  }

  // --- What the stream emits ------------------------------------------------------------

  // The log only grows between polls, and its ids are unique.
  ghost predicate Growing(polls: seq<Poll>) {
    && (forall k :: 0 <= k < |polls| ==> Distinct(polls[k].log))
    && forall k :: 0 < k < |polls| ==> polls[k - 1].log <= polls[k].log
  }

  // The cursor after n events have been emitted.
  function CursorAt(log: seq<Entry>, n: nat): Option<nat>
    requires n <= |log|
  {
    if n == 0 then None else Some(log[n - 1].id)
  }

  lemma PositionUnique(rows: seq<Entry>, i: nat)
    requires i < |rows| && Distinct(rows)
    ensures Position(rows, rows[i].id) == Some(i)
  {
    var p := Position(rows, rows[i].id).value;
  }

  lemma PrefixDistinct(log: seq<Entry>, limit: nat)
    requires Distinct(log)
    ensures Distinct(Prefix(log, limit))
  {
  }

  // One poll at a cursor after n events emits the rest of the prefix.
  lemma PollEmitsRest(log: seq<Entry>, n: nat, limit: nat)
    requires Distinct(log) && n <= |Prefix(log, limit)|
    ensures var rows := ListSince(log, CursorAt(Prefix(log, limit), n), limit);
            && rows == Prefix(log, limit)[n..]
            && NextCursor(CursorAt(Prefix(log, limit), n), rows) == CursorAt(Prefix(log, limit), |Prefix(log, limit)|)
  {
    PrefixDistinct(log, limit);
    if n > 0 {
      PositionUnique(Prefix(log, limit), n - 1);
    }
  }

  lemma {:induction false} GrowingLogs(polls: seq<Poll>, k: nat)
    requires Growing(polls) && k < |polls|
    ensures polls[0].log <= polls[k].log
  {
    if k > 0 {
      GrowingLogs(polls, k - 1);
    }
  }

  lemma GrowingRest(polls: seq<Poll>, limit: nat)
    requires |polls| > 0 && Growing(polls)
    ensures Distinct(polls[0].log)
    ensures |polls| > 1 ==> Growing(polls[1..]) && Prefix(polls[0].log, limit) <= Prefix(polls[1].log, limit)
  {
    var rest := polls[1..];
    assert forall k :: 0 < k < |rest| ==> rest[k - 1] == polls[k] && rest[k] == polls[k + 1];
    if |polls| > 1 {
      assert polls[1 - 1].log <= polls[1].log;
    }
  }

  lemma SameCursor(first: seq<Entry>, next: seq<Entry>, n: nat)
    requires first <= next && n <= |first|
    ensures CursorAt(first, n) == CursorAt(next, n)
  {
  }

  lemma LastPrefix(rest: seq<Poll>, first: seq<Entry>, limit: nat)
    requires |rest| > 0 && Growing(rest) && first <= Prefix(rest[0].log, limit) && |Made(rest)| > 0
    ensures first <= Prefix(Made(rest)[|Made(rest)| - 1].log, limit)
  {
    GrowingLogs(rest, |Made(rest)| - 1);
  }

  // From a cursor after n events on, the stream emits the rest of the last log polled, up
  // to the limit, each event once and in order.
  lemma {:induction false} StreamEmitsRest(polls: seq<Poll>, n: nat, limit: nat)
    requires |polls| > 0 && Growing(polls) && n <= |Prefix(polls[0].log, limit)|
    ensures |Made(polls)| > 0
    ensures var last := Prefix(Made(polls)[|Made(polls)| - 1].log, limit);
            && n <= |last|
            && Emitted(polls, CursorAt(Prefix(polls[0].log, limit), n), limit) == last[n..]
  {
    hide ListSince, NextCursor, Prefix, Growing, CursorAt;
    var first := Prefix(polls[0].log, limit);
    GrowingRest(polls, limit);
    PollEmitsRest(polls[0].log, n, limit);
    if !polls[0].over && |polls| > 1 {
      var rest := polls[1..];
      StreamEmitsRest(rest, |first|, limit);
      var made, last := Made(rest), Prefix(Made(rest)[|Made(rest)| - 1].log, limit);
      assert Made(polls) == [polls[0]] + made;
      LastPrefix(rest, first, limit);
      SameCursor(first, Prefix(rest[0].log, limit), |first|);
      assert first[n..] + last[|first|..] == last[n..];
    } else {
      assert first[n..] + [] == first[n..];
      assert Made(polls) == [polls[0]];
    }
  }

  // A stream started without a cursor emits exactly the first events of the log, as many
  // as the limit, once each and in order.
  lemma StreamEmitsPrefix(polls: seq<Poll>, limit: nat)
    requires |polls| > 0 && Growing(polls)
    ensures |Made(polls)| > 0
    ensures Emitted(polls, None, limit) == Prefix(Made(polls)[|Made(polls)| - 1].log, limit)
  {
    StreamEmitsRest(polls, 0, limit);
  }

  // Without a cursor the stream emits the whole log that the run ends up with exactly if that
  // fits into the limit and the last poll already found all of it. The status is read after
  // the events are listed, and written before the last event is, so that it may not.
  lemma StreamCompleteIff(polls: seq<Poll>, limit: nat, full: seq<Entry>)
    requires |polls| > 0 && Growing(polls)
    requires forall k :: 0 <= k < |polls| ==> polls[k].log <= full
    ensures |Made(polls)| > 0
    ensures Emitted(polls, None, limit) == full <==> |full| <= limit && Made(polls)[|Made(polls)| - 1].log == full
  {
    StreamEmitsPrefix(polls, limit);
    var k := |Made(polls)| - 1;
    assert Made(polls)[k] == polls[k];
  }

  // A stream resumed at an event emits what follows that event, if the first poll has it
  // within the limit.
  lemma ResumeWithinLimit(polls: seq<Poll>, id: nat, limit: nat)
    requires |polls| > 0 && Growing(polls) && Position(Prefix(polls[0].log, limit), id).Some?
    ensures |Made(polls)| > 0
    ensures var p, last := Position(Prefix(polls[0].log, limit), id).value, Prefix(Made(polls)[|Made(polls)| - 1].log, limit);
            p + 1 <= |last| && Emitted(polls, Some(id), limit) == last[p + 1..]
  {
    StreamEmitsRest(polls, Position(Prefix(polls[0].log, limit), id).value + 1, limit);
  }

  // Otherwise it starts over and emits the first events again.
  lemma ResumeBeyondLimit(polls: seq<Poll>, id: nat, limit: nat)
    requires |polls| > 0 && Growing(polls) && Prefix(polls[0].log, limit) != []
    requires Position(Prefix(polls[0].log, limit), id).None?
    ensures |Made(polls)| > 0
    ensures Emitted(polls, Some(id), limit) == Prefix(Made(polls)[|Made(polls)| - 1].log, limit)
  {
    StreamEmitsPrefix(polls, limit);
  }

  // The first poll emits nothing again that came before the cursor exactly if the cursor is
  // among the first events of the log; for a cursor of the log that is a position below
  // the limit.
  lemma ResumeIffWithinLimit(log: seq<Entry>, k: nat, limit: nat)
    requires Distinct(log) && k < |log|
    ensures ListSince(log, Some(log[k].id), limit) == Prefix(log, limit)[if k + 1 <= |Prefix(log, limit)| then k + 1 else 0..]
    ensures (forall e :: e in ListSince(log, Some(log[k].id), limit) ==> e !in log[..k + 1]) <==> k < limit || limit == 0
  {
    PrefixDistinct(log, limit);
    var rows := Prefix(log, limit);
    if k < |rows| {
      PositionUnique(rows, k);
      forall i | k + 1 <= i < |rows|
        ensures rows[i] !in log[..k + 1]
      {
        assert rows[i] == log[i];
      }
    } else if limit > 0 {
      assert rows[0] in rows && rows[0] in log[..k + 1];
    }
  }

  // Events beyond the limit are never emitted, however often the stream polls.
  lemma BeyondLimitNeverEmitted(polls: seq<Poll>, limit: nat)
    requires |polls| > 0 && Growing(polls)
    ensures |Emitted(polls, None, limit)| <= limit
  {
    StreamEmitsPrefix(polls, limit);
  }
}
