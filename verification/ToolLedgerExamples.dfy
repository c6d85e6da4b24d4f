// Two equal calls in a row, for any host: a replay that differs from the first answer, and
// an empty key with which the tool runs twice.
module ToolLedgerExamples {
  import opened Json
  import opened Outcomes
  import opened RiskAssessment
  import opened ToolLedger

  // A policy that looks at nothing but the size of results, of which none may have a record.
  function SizePolicy(block: int): Policy {
    Policy([], [], 0, [], 50, block, map[], map[])
  }

  // A list of one record: its finding has the score 85.
  const RESULT := List([Null], "[None]")

  function WriteCall(key: string, block: int): Request {
    Request("s", "agent", Call("write", "", map[], {}), Some(key), Enforce, SizePolicy(block), true, Returns(RESULT))
  }

  lemma NothingFound(h: Host, key: string, block: int)
    ensures CallFindings(SizePolicy(block), h, WriteCall(key, block).call, 0) == []
  {
    assert PatternFindings(h, "", []) == [];
  }

  lemma OneRecord(key: string, block: int)
    ensures ResultDecision(WriteCall(key, block), RESULT) == (if 85 >= block then BLOCK else REVIEW)
  {
    assert RecordCount(RESULT) == 1;
    assert MaxScore([Finding(ExcessiveRecords, 85)]) == 85;
  }

  lemma FirstCall(h: Host, key: string, block: int)
    requires block > 0
    ensures var (rows, o) := Serve([], WriteCall(key, block), h);
            && rows == [CompletedRow(WriteCall(key, block), RESULT)]
            && o == (if 85 >= block then Blocked else Allowed(RESULT))
  {
    hide CallFindings, ResultDecision;
    NothingFound(h, key, block);
    OneRecord(key, block);
    assert ByKey([], "agent", "write", key) == None;
    assert Failures([], "s") == 0;
    assert PreDecision([], WriteCall(key, block), h) == Some(ALLOW);
  }

  // A result that was held for review was answered as allowed; the second answer is REVIEW.
  lemma ReplayOfReview(h: Host)
    ensures var q := WriteCall("k", 90);
            var (rows, o) := Serve([], q, h);
            var o' := Serve(rows, q, h).1;
            && o == Allowed(RESULT) && Seen(o) == (ALLOW, RESULT)
            && o'.Replayed? && Seen(o') == (REVIEW, RESULT)
  {
    hide PreDecision, ResultDecision;
    FirstCall(h, "k", 90);
    OneRecord("k", 90);
    var row := CompletedRow(WriteCall("k", 90), RESULT);
    assert row in [row];
    ReplayChangesNothing([row], WriteCall("k", 90), h);
  }

  // A result that was withheld is handed over by the second answer.
  lemma ReplayOfBlock(h: Host)
    ensures var q := WriteCall("k", 80);
            var (rows, o) := Serve([], q, h);
            var o' := Serve(rows, q, h).1;
            && o == Blocked && Seen(o) == (BLOCK, Null)
            && o'.Replayed? && Seen(o') == (BLOCK, RESULT)
  {
    hide PreDecision, ResultDecision;
    FirstCall(h, "k", 80);
    OneRecord("k", 80);
    var row := CompletedRow(WriteCall("k", 80), RESULT);
    assert row in [row];
    ReplayChangesNothing([row], WriteCall("k", 80), h);
  }

  // The REVIEW row counts as one failed call, which is not enough for a finding.
  lemma SecondAllowed(h: Host)
    ensures PreDecision([CompletedRow(WriteCall("", 90), RESULT)], WriteCall("", 90), h) == Some(ALLOW)
  {
    hide CallFindings, ResultDecision;
    var row := CompletedRow(WriteCall("", 90), RESULT);
    FailuresSnoc([], row, "s");
    assert [] + [row] == [row];
    RepeatedIff(SizePolicy(90), h, WriteCall("", 90).call, Failures([row], "s"));
    NothingFound(h, "", 90);
  }

  // With the empty key the second call runs the tool again and fails on the index.
  lemma EmptyKeyTwice(h: Host)
    ensures var q := WriteCall("", 90);
            var (rows, o) := Serve([], q, h);
            o == Allowed(RESULT) && |rows| == 1 && Serve(rows, q, h) == (rows, Duplicate)
  {
    hide PreDecision, ResultDecision, CallFindings;
    var q := WriteCall("", 90);
    FirstCall(h, "", 90);
    SecondAllowed(h);
    EmptyKeyRunsAgain([], q, h);
  }
}
