/** The conversation ledger and its two anchors (app/store_db.py): every store transaction as a
    function on the database value, and the invariant those transactions keep. */
module Ledger {
  import opened Basics
  import opened Messages
  import TokenBudget

  const DB_MAX_TOOL_CALLS := 64

  datatype Row = Row(id: int, conversation: int, message: StoredMessage)

  datatype Conversation = Conversation(owner: string, summary: Option<string>,
                                       summaryUpto: Option<int>, layer1From: Option<int>)

  datatype Segment = Segment(number: nat, from: int, upto: int, content: string)

  datatype Db = Db(conversations: map<int, Conversation>, rows: seq<Row>,
                   segments: map<int, seq<Segment>>, nextId: int)

  datatype SpanText = SpanText(id: int, role: Role, text: string)

  datatype Meta = Meta(summary: Option<string>, summaryUpto: Option<int>, layer1From: Option<int>)

  datatype AppendResult = Applied(number: nat) | BadSession | AnchorMoved | BeyondLayer1

  function OrZero(x: Option<int>): int {
    if x.Some? then x.value else 0
  }

  function TextOf(m: StoredMessage): string {
    if m.content.Some? then m.content.value else ""
  }

  function SegmentsOf(db: Db, cid: int): seq<Segment> {
    if cid in db.segments then db.segments[cid] else []
  }

  function Contents(segments: seq<Segment>): (r: seq<string>)
    ensures |r| == |segments|
  {
    seq(|segments|, i requires 0 <= i < |segments| => segments[i].content)
  }

  // ---------------------------------------------------------------- queries

  predicate InSpan(r: Row, cid: int, from: int, upto: int) {
    r.conversation == cid && from < r.id <= upto && r.message.role != Tool
  }

  // The user and assistant rows of the conversation with from < id <= upto, by id.
  function Span(rows: seq<Row>, cid: int, from: int, upto: int): seq<SpanText> {
    if rows == [] then []
    else
      var last := rows[|rows| - 1];
      Span(rows[..|rows| - 1], cid, from, upto)
      + if InSpan(last, cid, from, upto) then [SpanText(last.id, last.message.role, TextOf(last.message))] else []
  }

  function WithText(span: seq<SpanText>): seq<SpanText> {
    if span == [] then []
    else WithText(span[..|span| - 1]) + if span[|span| - 1].text != "" then [span[|span| - 1]] else []
  }

  predicate HasRow(rows: seq<Row>, cid: int, id: int) {
    exists i :: 0 <= i < |rows| && rows[i].id == id && rows[i].conversation == cid
  }

  // The role of the first row of the conversation after the given id.
  function NextRole(rows: seq<Row>, cid: int, id: int): Option<Role> {
    if rows == [] then None
    else if rows[0].conversation == cid && rows[0].id > id then Some(rows[0].message.role)
    else NextRole(rows[1..], cid, id)
  }

  // The database's meaning of "turn boundary": no row follows, or a user row does.
  predicate IsBoundary(rows: seq<Row>, cid: int, id: int) {
    HasRow(rows, cid, id) && (NextRole(rows, cid, id).None? || NextRole(rows, cid, id) == Some(User))
  }

  function GetMeta(db: Db, cid: int, owner: string): Meta {
    if cid in db.conversations && db.conversations[cid].owner == owner
    then var c := db.conversations[cid]; Meta(c.summary, c.summaryUpto, c.layer1From)
    else Meta(None, None, None)
  }

  // ---------------------------------------------------------------- transactions

  function NewRows(messages: seq<StoredMessage>, cid: int, firstId: int): (r: seq<Row>)
    ensures |r| == |messages|
    ensures forall i :: 0 <= i < |r| ==> r[i] == Row(firstId + i, cid, messages[i])
  {
    seq(|messages|, i requires 0 <= i < |messages| => Row(firstId + i, cid, messages[i]))
  }

  function InsertRows(db: Db, cid: int, messages: seq<StoredMessage>): Db {
    db.(rows := db.rows + NewRows(messages, cid, db.nextId), nextId := db.nextId + |messages|)
  }

  function UserMessage(content: string): StoredMessage {
    StoredMessage(User, Some(content), None)
  }

  function AppendUser(db: Db, cid: int, content: string, maxChars: nat): Db {
    if |content| > maxChars || cid !in db.conversations then db
    else InsertRows(db, cid, [UserMessage(content)])
  }

  // The user row stored when the turn was prepared is not inserted again.
  function CommitTurn(db: Db, cid: int, messages: seq<StoredMessage>, userRow: Option<int>): Db {
    if !ValidTurn(messages, DB_MAX_TOOL_CALLS) || cid !in db.conversations then db
    else InsertRows(db, cid, if userRow.Some? then messages[1..] else messages)
  }

  predicate MoveAccepted(db: Db, cid: int, owner: string, newId: int) {
    && cid in db.conversations && db.conversations[cid].owner == owner
    && (db.conversations[cid].layer1From.None? || db.conversations[cid].layer1From.value < newId)
    && IsBoundary(db.rows, cid, newId)
  }

  function MoveLayer1(db: Db, cid: int, owner: string, newId: int): Db {
    if !MoveAccepted(db, cid, owner, newId) then db
    else db.(conversations := db.conversations[cid := db.conversations[cid].(layer1From := Some(newId))])
  }

  function AppendSummaryResult(db: Db, cid: int, from: int, upto: int): AppendResult {
    if cid !in db.conversations then BadSession
    else
      var c := db.conversations[cid];
      if OrZero(c.summaryUpto) != from then AnchorMoved
      else if c.layer1From.None? || upto > c.layer1From.value then BeyondLayer1
      else Applied(|SegmentsOf(db, cid)| + 1)
  }

  // Compare-and-set on summaryUpto.
  function AppendSummary(db: Db, cid: int, from: int, upto: int, content: string, tokens: int): Db {
    if !AppendSummaryResult(db, cid, from, upto).Applied? then db
    else
      var segments := SegmentsOf(db, cid) + [Segment(|SegmentsOf(db, cid)| + 1, from, upto, content)];
      var c := db.conversations[cid].(summary := Some(TokenBudget.Projection(Contents(segments), tokens)),
                                      summaryUpto := Some(upto));
      db.(conversations := db.conversations[cid := c], segments := db.segments[cid := segments])
  }

  // ---------------------------------------------------------------- invariant

  ghost predicate RowsInOrder(rows: seq<Row>, nextId: int) {
    && (forall i :: 0 <= i < |rows| ==> 0 < rows[i].id < nextId)
    && (forall i, j :: 0 <= i < j < |rows| ==> rows[i].id < rows[j].id)
  }

  // Segments are numbered from 1 and cover (0, upto] without gap or overlap.
  ghost predicate Tiles(segments: seq<Segment>, upto: int) {
    if segments == [] then upto == 0
    else
      var last := segments[|segments| - 1];
      && last.number == |segments| && last.upto == upto && last.from < last.upto
      && Tiles(segments[..|segments| - 1], last.from)
  }

  ghost predicate AnchorsOk(c: Conversation, segments: seq<Segment>, nextId: int, tokens: int) {
    && Tiles(segments, OrZero(c.summaryUpto))
    && (c.summaryUpto.None? <==> segments == [])
    && c.summary == (if segments == [] then None else Some(TokenBudget.Projection(Contents(segments), tokens)))
    && (c.summaryUpto.Some? ==> c.layer1From.Some? && c.summaryUpto.value <= c.layer1From.value)
    && (c.layer1From.Some? ==> 0 < c.layer1From.value < nextId)
  }

  ghost predicate Wf(db: Db, tokens: int) {
    && 0 < db.nextId
    && RowsInOrder(db.rows, db.nextId)
    && db.segments.Keys <= db.conversations.Keys
    && forall cid :: cid in db.conversations ==>
         AnchorsOk(db.conversations[cid], SegmentsOf(db, cid), db.nextId, tokens)
  }

  lemma {:induction false} HasRowInRange(rows: seq<Row>, nextId: int, cid: int, id: int)
    requires RowsInOrder(rows, nextId) && HasRow(rows, cid, id)
    ensures 0 < id < nextId
  {
  }

  lemma {:induction false} TilesBounds(segments: seq<Segment>, upto: int)
    requires Tiles(segments, upto)
    ensures 0 <= upto
    ensures segments != [] ==> 0 < upto
    ensures forall i :: 0 <= i < |segments| ==>
              segments[i].number == i + 1 && 0 <= segments[i].from < segments[i].upto <= upto
    ensures forall i :: 0 < i < |segments| ==> segments[i].from == segments[i - 1].upto
    ensures segments != [] ==> segments[0].from == 0
  {
    if segments != [] {
      var n := |segments|;
      TilesBounds(segments[..n - 1], segments[n - 1].from);
      if n == 1 {
        assert segments[..n - 1] == [];
      } else {
        assert segments[n - 2] == segments[..n - 1][n - 2];
      }
    }
  }

  lemma InsertRowsKeepsWf(db: Db, cid: int, messages: seq<StoredMessage>, tokens: int)
    requires Wf(db, tokens)
    ensures Wf(InsertRows(db, cid, messages), tokens)
  {
    var db' := InsertRows(db, cid, messages);
    forall c | c in db'.conversations
      ensures AnchorsOk(db'.conversations[c], SegmentsOf(db', c), db'.nextId, tokens)
    {
      assert SegmentsOf(db', c) == SegmentsOf(db, c);
      assert AnchorsOk(db.conversations[c], SegmentsOf(db, c), db.nextId, tokens);
    }
  }

  lemma MoveLayer1KeepsWf(db: Db, cid: int, owner: string, newId: int, tokens: int)
    requires Wf(db, tokens)
    ensures Wf(MoveLayer1(db, cid, owner, newId), tokens)
  {
    var db' := MoveLayer1(db, cid, owner, newId);
    if MoveAccepted(db, cid, owner, newId) {
      HasRowInRange(db.rows, db.nextId, cid, newId);
      forall c | c in db'.conversations
        ensures AnchorsOk(db'.conversations[c], SegmentsOf(db', c), db'.nextId, tokens)
      {
        assert SegmentsOf(db', c) == SegmentsOf(db, c);
        assert AnchorsOk(db.conversations[c], SegmentsOf(db, c), db.nextId, tokens);
      }
    }
  }

  // The store's compare-and-set does not look at the span itself: an applied append keeps the tiling
  // exactly when the span is not empty.
  lemma AppendSummaryKeepsWfIff(db: Db, cid: int, from: int, upto: int, content: string, tokens: int)
    requires Wf(db, tokens) && AppendSummaryResult(db, cid, from, upto).Applied?
    ensures Wf(AppendSummary(db, cid, from, upto, content, tokens), tokens) <==> from < upto
  {
    var db' := AppendSummary(db, cid, from, upto, content, tokens);
    var old_, new_ := SegmentsOf(db, cid), SegmentsOf(db', cid);
    assert AnchorsOk(db.conversations[cid], old_, db.nextId, tokens);
    TilesBounds(old_, from);
    assert new_[..|new_| - 1] == old_;
    assert Tiles(new_, upto) <==> from < upto;
    assert OrZero(db'.conversations[cid].summaryUpto) == upto;
    if from < upto {
      forall c | c in db'.conversations
        ensures AnchorsOk(db'.conversations[c], SegmentsOf(db', c), db'.nextId, tokens)
      {
        assert AnchorsOk(db.conversations[c], SegmentsOf(db, c), db.nextId, tokens);
        if c != cid {
          assert SegmentsOf(db', c) == SegmentsOf(db, c);
        }
      }
    } else {
      assert !AnchorsOk(db'.conversations[cid], new_, db'.nextId, tokens);
    }
  }

  // As here: nothing was summarised yet, and an append for (0, 0] is applied.
  lemma EmptySpanBreaksTiling(tokens: int)
    ensures var db := Db(map[1 := Conversation("u", None, None, Some(1))], [Row(1, 1, UserMessage("q"))], map[], 2);
            && Wf(db, tokens) && AppendSummaryResult(db, 1, 0, 0).Applied?
            && !Wf(AppendSummary(db, 1, 0, 0, "s", tokens), tokens)
  {
    var db := Db(map[1 := Conversation("u", None, None, Some(1))], [Row(1, 1, UserMessage("q"))], map[], 2);
    assert Wf(db, tokens);
    AppendSummaryKeepsWfIff(db, 1, 0, 0, "s", tokens);
  }

  // ---------------------------------------------------------------- spans

  predicate IsSpanText(rows: seq<Row>, cid: int, from: int, upto: int, k: int, x: SpanText) {
    && 0 <= k < |rows| && rows[k].conversation == cid && from < rows[k].id <= upto && rows[k].message.role != Tool
    && x == SpanText(rows[k].id, rows[k].message.role,
                     if rows[k].message.content.Some? then rows[k].message.content.value else "")
  }

  ghost predicate IsTextOfSpan(rows: seq<Row>, cid: int, from: int, upto: int, x: SpanText) {
    exists k :: IsSpanText(rows, cid, from, upto, k, x)
  }

  // The span is exactly the user and assistant rows of its range, each once, by id.
  lemma {:induction false} SpanSpec(rows: seq<Row>, nextId: int, cid: int, from: int, upto: int)
    requires RowsInOrder(rows, nextId)
    ensures forall x :: x in Span(rows, cid, from, upto) <==> IsTextOfSpan(rows, cid, from, upto, x)
    ensures forall i, j :: 0 <= i < j < |Span(rows, cid, from, upto)| ==>
              Span(rows, cid, from, upto)[i].id < Span(rows, cid, from, upto)[j].id
  {
    if rows != [] {
      var n := |rows| - 1;
      var before, span := Span(rows[..n], cid, from, upto), Span(rows, cid, from, upto);
      SpanSpec(rows[..n], nextId, cid, from, upto);
      forall x ensures x in span <==> IsTextOfSpan(rows, cid, from, upto, x) {
        OneMoreText(rows, cid, from, upto, x);
      }
      forall i | 0 <= i < |before| ensures before[i].id < rows[n].id {
        assert before[i] in before;
        var k :| IsSpanText(rows[..n], cid, from, upto, k, before[i]);
      }
    }
  }

  lemma OneMoreText(rows: seq<Row>, cid: int, from: int, upto: int, x: SpanText)
    requires rows != []
    ensures IsTextOfSpan(rows, cid, from, upto, x)
            <==> (IsTextOfSpan(rows[..|rows| - 1], cid, from, upto, x)
                  || IsSpanText(rows, cid, from, upto, |rows| - 1, x))
  {
    var n := |rows| - 1;
    if IsTextOfSpan(rows, cid, from, upto, x) {
      var k :| IsSpanText(rows, cid, from, upto, k, x);
      assert k < n ==> IsSpanText(rows[..n], cid, from, upto, k, x);
    }
    if IsTextOfSpan(rows[..n], cid, from, upto, x) {
      var k :| IsSpanText(rows[..n], cid, from, upto, k, x);
      assert IsSpanText(rows, cid, from, upto, k, x);
    }
  }

  // And the transcript is what of it has text, in the same order.
  lemma {:induction false} WithTextSpec(span: seq<SpanText>)
    requires forall i, j :: 0 <= i < j < |span| ==> span[i].id < span[j].id
    ensures forall x :: x in WithText(span) <==> x in span && x.text != ""
    ensures forall i, j :: 0 <= i < j < |WithText(span)| ==> WithText(span)[i].id < WithText(span)[j].id
  {
    if span != [] {
      var n := |span| - 1;
      var before := WithText(span[..n]);
      WithTextSpec(span[..n]);
      assert span == span[..n] + [span[n]];
      forall i | 0 <= i < |before| ensures before[i].id < span[n].id {
        assert before[i] in span[..n];
      }
    }
  }

  // Rows inserted later carry larger ids, so a span that ends below them is immutable.
  lemma {:induction false} SpanIsStable(rows: seq<Row>, more: seq<Row>, cid: int, from: int, upto: int)
    requires forall i :: 0 <= i < |more| ==> upto < more[i].id
    ensures Span(rows + more, cid, from, upto) == Span(rows, cid, from, upto)
  {
    if more == [] {
      assert rows + more == rows;
    } else {
      var init := more[..|more| - 1];
      SpanIsStable(rows, init, cid, from, upto);
      assert (rows + more)[..|rows + more| - 1] == rows + init;
    }
  }

  lemma {:induction false} WithTextConcat(a: seq<SpanText>, b: seq<SpanText>)
    ensures WithText(a + b) == WithText(a) + WithText(b)
  {
    if b == [] {
      assert a + b == a;
    } else {
      WithTextConcat(a, b[..|b| - 1]);
      assert (a + b)[..|a + b| - 1] == a + b[..|b| - 1];
    }
  }

  lemma {:induction false} SpanBelow(rows: seq<Row>, cid: int, from: int, upto: int)
    requires forall i :: 0 <= i < |rows| ==> rows[i].id <= from
    ensures Span(rows, cid, from, upto) == []
  {
    if rows != [] {
      SpanBelow(rows[..|rows| - 1], cid, from, upto);
    }
  }

  lemma {:induction false} SpanSplits(rows: seq<Row>, nextId: int, cid: int, a: int, b: int, c: int)
    requires RowsInOrder(rows, nextId) && a <= b <= c
    ensures Span(rows, cid, a, c) == Span(rows, cid, a, b) + Span(rows, cid, b, c)
  {
    if rows != [] {
      var init, last := rows[..|rows| - 1], rows[|rows| - 1];
      SpanSplits(init, nextId, cid, a, b, c);
      var x, y := Span(init, cid, a, b), Span(init, cid, b, c);
      if last.id <= b {
        SpanBelow(init, cid, b, c);
        assert !InSpan(last, cid, b, c) && InSpan(last, cid, a, c) == InSpan(last, cid, a, b);
        assert Span(rows, cid, b, c) == [];
        assert Span(rows, cid, a, c) == Span(rows, cid, a, b);
      } else {
        assert !InSpan(last, cid, a, b) && InSpan(last, cid, a, c) == InSpan(last, cid, b, c);
        assert Span(rows, cid, a, b) == x;
        var tail := if InSpan(last, cid, b, c)
            then [SpanText(last.id, last.message.role, TextOf(last.message))] else [];
        assert (x + y) + tail == x + (y + tail);
      }
    }
  }

  // What a summary task sends to the model for a span.
  function Transcript(rows: seq<Row>, cid: int, from: int, upto: int): seq<SpanText> {
    WithText(Span(rows, cid, from, upto))
  }

  lemma TranscriptSplits(rows: seq<Row>, nextId: int, cid: int, a: int, b: int, c: int)
    requires RowsInOrder(rows, nextId) && a <= b <= c
    ensures Transcript(rows, cid, a, c) == Transcript(rows, cid, a, b) + Transcript(rows, cid, b, c)
  {
    SpanSplits(rows, nextId, cid, a, b, c);
    WithTextConcat(Span(rows, cid, a, b), Span(rows, cid, b, c));
  }

  lemma NextRoleSpec(rows: seq<Row>, nextId: int, cid: int, id: int, i: nat)
    requires RowsInOrder(rows, nextId)
    requires i < |rows| && rows[i].conversation == cid && id < rows[i].id
    requires forall k :: 0 <= k < i && rows[k].conversation == cid ==> rows[k].id <= id
    ensures NextRole(rows, cid, id) == Some(rows[i].message.role)
  {
    if i > 0 {
      assert RowsInOrder(rows[1..], nextId);
      NextRoleSpec(rows[1..], nextId, cid, id, i - 1);
    }
  }

  lemma NextRoleNone(rows: seq<Row>, cid: int, id: int)
    requires forall k :: 0 <= k < |rows| && rows[k].conversation == cid ==> rows[k].id <= id
    ensures NextRole(rows, cid, id).None?
  {
  }
}
