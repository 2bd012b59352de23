/** Old checkpoints without ids, aligned with the ledger (app/services/context_layers.py, app/graph/nodes.py). */
module Restamping {
  import opened Basics
  import M = Messages
  import Ledger
  import opened ContextLayers

  // How a row's calls, and the call a tool row answers, read as text.
  datatype Reading = Reading(calls: M.StoredMessage -> string, callId: M.StoredMessage -> string)

  function KindOf(role: M.Role): Kind {
    match role
    case User => Human
    case Assistant => Assistant
    case Tool => ToolResult
  }

  function RecordOf(row: Ledger.Row, reading: Reading): Rec {
    Rec(row.id, KindOf(row.message.role), Ledger.TextOf(row.message), reading.calls(row.message),
        reading.callId(row.message))
  }

  // The records of a conversation, by id; legacy ledgers hold tool rows too.
  function RecordsOf(rows: seq<Ledger.Row>, cid: int, reading: Reading): seq<Rec> {
    if rows == [] then []
    else
      var last := rows[|rows| - 1];
      RecordsOf(rows[..|rows| - 1], cid, reading) + if last.conversation == cid then [RecordOf(last, reading)] else []
  }

  // ---------------------------------------------------------------- records and rows

  predicate AreSame(row: Ledger.Row, r: Rec) {
    row.id == r.id && (row.message.role == M.User <==> r.kind == Human)
  }

  ghost predicate HasSpeechRow(rows: seq<Ledger.Row>, cid: int, r: Rec) {
    exists k :: IsSpeechRow(rows, cid, k) && AreSame(rows[k], r)
  }

  ghost predicate IsRecorded(row: Ledger.Row, records: seq<Rec>) {
    exists j :: 0 <= j < |records| && AreSame(row, records[j])
  }

  // The records are the user and assistant rows of the conversation, in order.
  ghost predicate AreRecords(rows: seq<Ledger.Row>, cid: int, records: seq<Rec>) {
    && IdsGrow(records)
    && (forall j :: 0 <= j < |records| ==> HasSpeechRow(rows, cid, records[j]))
    && (forall k :: IsSpeechRow(rows, cid, k) ==> IsRecorded(rows[k], records))
  }

  function SpeechOf(rows: seq<Ledger.Row>, cid: int, reading: Reading): seq<Rec> {
    SpeechRecords(RecordsOf(rows, cid, reading))
  }

  lemma {:induction false} RecordsAre(rows: seq<Ledger.Row>, nextId: int, cid: int, reading: Reading)
    requires Ledger.RowsInOrder(rows, nextId)
    ensures AreRecords(rows, cid, SpeechOf(rows, cid, reading))
  {
    if rows == [] {
      assert SpeechOf(rows, cid, reading) == [];
    } else {
      RecordsAre(rows[..|rows| - 1], nextId, cid, reading);
      RecordsStep(rows, nextId, cid, reading, SpeechOf(rows[..|rows| - 1], cid, reading));
    }
  }

  lemma RecordsStep(rows: seq<Ledger.Row>, nextId: int, cid: int, reading: Reading, records: seq<Rec>)
    requires rows != [] && Ledger.RowsInOrder(rows, nextId)
    requires records == SpeechOf(rows[..|rows| - 1], cid, reading) && AreRecords(rows[..|rows| - 1], cid, records)
    ensures AreRecords(rows, cid, SpeechOf(rows, cid, reading))
  {
    var r := RecordOf(rows[|rows| - 1], reading);
    SpeechRecordsMore(rows, cid, reading);
    if IsSpeechRow(rows, cid, |rows| - 1) {
      OneMoreRecord(rows, nextId, cid, records, r);
      assert SpeechOf(rows, cid, reading) == records + [r];
    } else {
      OneMoreRow(rows, cid, records);
      assert SpeechOf(rows, cid, reading) == records;
    }
  }

  lemma SpeechRecordsMore(rows: seq<Ledger.Row>, cid: int, reading: Reading)
    requires rows != []
    ensures SpeechOf(rows, cid, reading)
            == SpeechOf(rows[..|rows| - 1], cid, reading)
               + if IsSpeechRow(rows, cid, |rows| - 1) then [RecordOf(rows[|rows| - 1], reading)] else []
    ensures AreSame(rows[|rows| - 1], RecordOf(rows[|rows| - 1], reading))
  {
    var before, r := RecordsOf(rows[..|rows| - 1], cid, reading), RecordOf(rows[|rows| - 1], reading);
    assert (before + [r])[..|before|] == before;
    assert before + [] == before && SpeechRecords(before) + [] == SpeechRecords(before);
  }

  lemma HasSpeechRowMore(rows: seq<Ledger.Row>, cid: int, r: Rec)
    requires rows != [] && HasSpeechRow(rows[..|rows| - 1], cid, r)
    ensures HasSpeechRow(rows, cid, r)
  {
    var init := rows[..|rows| - 1];
    var k :| IsSpeechRow(init, cid, k) && AreSame(init[k], r);
    assert IsSpeechRow(rows, cid, k) && AreSame(rows[k], r);
  }

  lemma OneMoreRow(rows: seq<Ledger.Row>, cid: int, records: seq<Rec>)
    requires rows != [] && !IsSpeechRow(rows, cid, |rows| - 1) && AreRecords(rows[..|rows| - 1], cid, records)
    ensures AreRecords(rows, cid, records)
  {
    forall j | 0 <= j < |records| ensures HasSpeechRow(rows, cid, records[j]) {
      HasSpeechRowMore(rows, cid, records[j]);
    }
    forall k | IsSpeechRow(rows, cid, k) ensures IsRecorded(rows[k], records) {
      OldRowIsRecorded(rows, cid, records, k);
    }
  }

  lemma OldRowIsRecorded(rows: seq<Ledger.Row>, cid: int, records: seq<Rec>, k: nat)
    requires k < |rows| - 1 && IsSpeechRow(rows, cid, k) && AreRecords(rows[..|rows| - 1], cid, records)
    ensures IsRecorded(rows[k], records)
  {
    assert IsSpeechRow(rows[..|rows| - 1], cid, k);
  }

  lemma OneMoreRecord(rows: seq<Ledger.Row>, nextId: int, cid: int, records: seq<Rec>, r: Rec)
    requires rows != [] && Ledger.RowsInOrder(rows, nextId) && AreRecords(rows[..|rows| - 1], cid, records)
    requires IsSpeechRow(rows, cid, |rows| - 1) && AreSame(rows[|rows| - 1], r)
    ensures AreRecords(rows, cid, records + [r])
  {
    var all := records + [r];
    IdsGrowMore(rows, nextId, cid, records, r);
    forall j | 0 <= j < |all| ensures HasSpeechRow(rows, cid, all[j]) {
      if j < |records| {
        HasSpeechRowMore(rows, cid, records[j]);
      }
    }
    forall k | IsSpeechRow(rows, cid, k) ensures IsRecorded(rows[k], all) {
      RecordedMore(rows[k], records, r);
      if k < |rows| - 1 {
        OldRowIsRecorded(rows, cid, records, k);
      }
    }
  }

  lemma RecordedMore(row: Ledger.Row, records: seq<Rec>, r: Rec)
    ensures IsRecorded(row, records) || AreSame(row, r) ==> IsRecorded(row, records + [r])
  {
    if IsRecorded(row, records) {
      var j :| 0 <= j < |records| && AreSame(row, records[j]);
      assert (records + [r])[j] == records[j];
    }
    assert (records + [r])[|records|] == r;
  }

  lemma IdsGrowMore(rows: seq<Ledger.Row>, nextId: int, cid: int, records: seq<Rec>, r: Rec)
    requires rows != [] && Ledger.RowsInOrder(rows, nextId) && r.id == rows[|rows| - 1].id
    requires AreRecords(rows[..|rows| - 1], cid, records)
    ensures IdsGrow(records + [r])
  {
    var all := records + [r];
    forall j | 0 <= j < |all| ensures IdBefore(all, j) < all[j].id {
      if j < |records| {
        assert IdBefore(records, j) < records[j].id;
      } else if j > 0 {
        RecordBelow(rows, nextId, cid, records[j - 1]);
      }
    }
  }

  lemma RecordBelow(rows: seq<Ledger.Row>, nextId: int, cid: int, r: Rec)
    requires rows != [] && Ledger.RowsInOrder(rows, nextId) && HasSpeechRow(rows[..|rows| - 1], cid, r)
    ensures r.id < rows[|rows| - 1].id
  {
    var init := rows[..|rows| - 1];
    var k :| IsSpeechRow(init, cid, k) && AreSame(init[k], r);
    assert init[k] == rows[k];
  }

  // ---------------------------------------------------------------- records and stamps

  predicate Answers(m: Msg, r: Rec) {
    m.stamp == Some(r.id) && (m.kind == Human <==> r.kind == Human)
  }

  ghost predicate HasRecord(m: Msg, records: seq<Rec>) {
    exists j :: 0 <= j < |records| && Answers(m, records[j])
  }

  // The stamps are the ids of the records, each at a message of the same kind.
  ghost predicate AreStamps(ms: seq<Msg>, records: seq<Rec>) {
    && (forall i :: 0 <= i < |ms| && ms[i].stamp.Some? ==> HasRecord(ms[i], records))
    && (forall j :: 0 <= j < |records| ==> Stamps(ms, records[j].id))
  }

  ghost predicate SameKeys(ms: seq<Msg>, records: seq<Rec>) {
    |Speech(ms)| == |records| && forall k :: 0 <= k < |records| ==> SameKey(Speech(ms)[k], records[k])
  }

  // As old checkpoints are: no stamps on tool results, and none in front.
  ghost predicate IsCheckpoint(ms: seq<Msg>) {
    && (forall i :: 0 <= i < |ms| && ms[i].kind == ToolResult ==> ms[i].stamp.None?)
    && (ms != [] ==> ms[0].kind != ToolResult)
  }

  lemma {:induction false} RestampStamps(ms: seq<Msg>, records: seq<Rec>)
    requires IsCheckpoint(ms) && SameKeys(ms, records)
    ensures AreStamps(Restamp(ms, records), records)
  {
    if ms != [] {
      var init, m := ms[..|ms| - 1], ms[|ms| - 1];
      if m.kind == ToolResult {
        assert Speech(ms) == Speech(init);
        RestampStamps(init, records);
        ToolStamps(Restamp(init, records), m, records);
      } else {
        var before, r := records[..|records| - 1], records[|records| - 1];
        assert Speech(ms) == Speech(init) + [m];
        RestampStamps(init, before);
        OneMoreStamp(Restamp(init, before), m.(stamp := Some(r.id)), before, r);
        assert before + [r] == records;
      }
    }
  }

  lemma ToolStamps(ms: seq<Msg>, m: Msg, records: seq<Rec>)
    requires AreStamps(ms, records) && m.stamp.None?
    ensures AreStamps(ms + [m], records)
  {
    forall j | 0 <= j < |records| ensures Stamps(ms + [m], records[j].id) {
      StampsMore(ms, m, records[j].id);
    }
  }

  lemma StampsMore(ms: seq<Msg>, m: Msg, id: int)
    ensures Stamps(ms + [m], id) <==> Stamps(ms, id) || m.stamp == Some(id)
  {
    if Stamps(ms, id) {
      var i :| 0 <= i < |ms| && ms[i].stamp == Some(id);
      assert (ms + [m])[i] == ms[i];
    }
    assert (ms + [m])[|ms|] == m;
  }

  lemma OneMoreStamp(ms: seq<Msg>, m: Msg, records: seq<Rec>, r: Rec)
    requires AreStamps(ms, records) && Answers(m, r)
    ensures AreStamps(ms + [m], records + [r])
  {
    var all := records + [r];
    forall i | 0 <= i < |ms + [m]| && (ms + [m])[i].stamp.Some? ensures HasRecord((ms + [m])[i], all) {
      if i < |ms| {
        var j :| 0 <= j < |records| && Answers(ms[i], records[j]);
        assert all[j] == records[j];
      } else {
        assert all[|records|] == r;
      }
    }
    forall j | 0 <= j < |all| ensures Stamps(ms + [m], all[j].id) {
      StampsMore(ms, m, all[j].id);
    }
  }

  // ---------------------------------------------------------------- the ledger behind a re-stamped checkpoint

  lemma RecordHasRow(rows: seq<Ledger.Row>, nextId: int, cid: int, m: Msg, r: Rec)
    requires Ledger.RowsInOrder(rows, nextId) && Answers(m, r) && HasSpeechRow(rows, cid, r)
    ensures Ledger.HasRow(rows, cid, r.id)
    ensures forall k :: 0 <= k < |rows| && rows[k].id == r.id ==> (rows[k].message.role == M.User <==> m.kind == Human)
  {
    var v :| IsSpeechRow(rows, cid, v) && AreSame(rows[v], r);
    forall k | 0 <= k < |rows| && rows[k].id == r.id ensures k == v {
      assert k < v || k == v || v < k;
    }
  }

  lemma RowIsStamped(row: Ledger.Row, ms: seq<Msg>, records: seq<Rec>)
    requires IsRecorded(row, records) && AreStamps(ms, records)
    ensures Stamps(ms, row.id)
  {
    var j :| 0 <= j < |records| && AreSame(row, records[j]);
    assert Stamps(ms, records[j].id);
  }

  // With every user and assistant row stamped, no run of rows is missing.
  lemma StampsAreBehind(rows: seq<Ledger.Row>, nextId: int, cid: int, ms: seq<Msg>, records: seq<Rec>)
    requires Ledger.RowsInOrder(rows, nextId) && AreRecords(rows, cid, records) && AreStamps(ms, records)
    ensures LedgerBehind(rows, cid, ms)
  {
    forall i | 0 <= i < |ms| && ms[i].stamp.Some?
      ensures Ledger.HasRow(rows, cid, ms[i].stamp.value)
      ensures forall k :: 0 <= k < |rows| && ms[i].stamp == Some(rows[k].id) ==>
                (rows[k].message.role == M.User <==> ms[i].kind == Human)
    {
      var j :| 0 <= j < |records| && Answers(ms[i], records[j]);
      RecordHasRow(rows, nextId, cid, ms[i], records[j]);
    }
    forall k | IsSpeechRow(rows, cid, k) ensures Stamps(ms, rows[k].id) {
      RowIsStamped(rows[k], ms, records);
    }
  }

  // Main result. A checkpoint that is re-stamped with the records of its conversation is well stamped and has its
  // ledger behind it, tool rows or not: the cut's guarantees hold for it and for every history that grows from it.
  lemma RestampIsBehind(rows: seq<Ledger.Row>, nextId: int, cid: int, reading: Reading, ms: seq<Msg>)
    requires Ledger.RowsInOrder(rows, nextId) && IsCheckpoint(ms) && Aligned(ms, RecordsOf(rows, cid, reading))
    ensures var out := Restamp(ms, SpeechOf(rows, cid, reading));
            WellStamped(out) && LedgerBehind(rows, cid, out)
  {
    var records := SpeechOf(rows, cid, reading);
    RecordsAre(rows, nextId, cid, reading);
    RestampIsWellStamped(ms, records);
    RestampStamps(ms, records);
    StampsAreBehind(rows, nextId, cid, Restamp(ms, records), records);
  }
}
