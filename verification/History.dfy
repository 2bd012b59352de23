/** A conversation over many turns (app/graph/nodes.py, log_turn). */
module History {
  // The ledger on one side, the stamped messages the graph keeps on the other, with turns that are never finished and
  // commits whose checkpoint is lost.
  import opened Basics
  import M = Messages
  import Ledger
  import A = AgentTurn
  import opened ContextLayers
  import opened Restamping

  // How an assistant message's calls and a tool's answer read as text; neither matters for the ids.
  datatype Rendering = Rendering(calls: seq<A.Call> -> string, answer: A.Message -> string)

  // The user row stored for the turn that is running.
  datatype World = World(db: Ledger.Db, history: seq<Msg>, pending: Option<int>)

  datatype Event =
    | Prepare(question: string)
    | Finish(turn: seq<A.Message>)
    | FinishUnsaved(turn: seq<A.Message>)
    | Abandon
    | Elsewhere(other: int, messages: seq<M.StoredMessage>)
    | MoveLayer1(conversation: int, owner: string, newId: int)
    | AppendSummary(conversation: int, from: int, upto: int, content: string)

  datatype Config = Config(cid: int, maxChars: nat, maxCalls: nat, tokens: int, rendering: Rendering)

  // ---------------------------------------------------------------- stamping

  function ToMsg(r: Rendering, m: A.Message, id: Option<int>): Msg {
    match m
    case Human(text) => Msg(Human, text, "", "", id)
    case AI(text, calls) => Msg(Assistant, text, if calls == [] then "" else r.calls(calls), "", id)
    case Answer(callId, _) => Msg(ToolResult, r.answer(m), "", callId, id)
  }

  // The ids of the stored rows, written back to the messages they were stored for.
  function Stamp(r: Rendering, turn: seq<A.Message>, ids: seq<int>): (ms: seq<Msg>)
    requires |ids| == |A.Stored(turn)|
    ensures |ms| == |turn|
  {
    if turn == [] then []
    else
      var n := |turn| - 1;
      if turn[n].Answer? then Stamp(r, turn[..n], ids) + [ToMsg(r, turn[n], None)]
      else Stamp(r, turn[..n], ids[..|ids| - 1]) + [ToMsg(r, turn[n], Some(ids[|ids| - 1]))]
  }

  lemma {:induction false} StampAt(r: Rendering, turn: seq<A.Message>, ids: seq<int>, i: nat)
    requires |ids| == |A.Stored(turn)| && i < |turn|
    ensures turn[i].Answer? ==> Stamp(r, turn, ids)[i] == ToMsg(r, turn[i], None)
    ensures !turn[i].Answer? ==>
              |A.Stored(turn[..i])| < |ids|
                  && Stamp(r, turn, ids)[i] == ToMsg(r, turn[i], Some(ids[|A.Stored(turn[..i])|]))
  {
    var n := |turn| - 1;
    if i < n {
      StampAt(r, turn[..n], if turn[n].Answer? then ids else ids[..|ids| - 1], i);
      assert turn[..n][..i] == turn[..i];
    }
  }

  // Stamping leaves every message what it says, and gives an id to all but the tool answers.
  lemma StampKeepsMessages(r: Rendering, turn: seq<A.Message>, ids: seq<int>, i: nat)
    requires |ids| == |A.Stored(turn)| && i < |turn|
    ensures var m, s := turn[i], Stamp(r, turn, ids)[i];
            && (s.stamp.None? <==> m.Answer?) && (s.kind == ToolResult <==> m.Answer?)
            && (m.Human? ==> s.kind == Human && s.content == m.text && s.calls == "")
            && (m.AI? ==> s.kind == Assistant && s.content == m.text && (m.calls == [] ==> s.calls == ""))
            && (m.Answer? ==> s.callId == m.callId)
  {
    StampAt(r, turn, ids, i);
  }

  function Unstamped(r: Rendering, turn: seq<A.Message>, ids: seq<int>): (ms: seq<Msg>)
    requires |ids| == |A.Stored(turn)|
    ensures StampedAtPlaces(r, turn, ids, [], ms)
  {
    seq(|turn|, i requires 0 <= i < |turn| => ToMsg(r, turn[i], None))
  }

  // The messages at these places are stamped, the others are not.
  ghost predicate StampedAtPlaces(r: Rendering, turn: seq<A.Message>, ids: seq<int>, places: seq<nat>, ms: seq<Msg>)
    requires |ids| == |A.Stored(turn)|
  {
    |ms| == |turn|
    && forall i :: 0 <= i < |turn| ==> ms[i] == if i in places then Stamp(r, turn, ids)[i] else ToMsg(r, turn[i], None)
  }

  lemma OneMorePlace(r: Rendering, turn: seq<A.Message>, ids: seq<int>, places: seq<nat>, ms: seq<Msg>,
                     row: M.StoredMessage, k: nat, i: nat)
    requires |ids| == |A.Stored(turn)| && StampedAtPlaces(r, turn, ids, places, ms) && A.IsRowOf(turn, k, row, i)
    ensures k < |ids| && StampedAtPlaces(r, turn, ids, places + [i], ms[i := ToMsg(r, turn[i], Some(ids[k]))])
  {
    StampAt(r, turn, ids, i);
  }

  lemma AllPlaces(r: Rendering, turn: seq<A.Message>, ids: seq<int>, places: seq<nat>, ms: seq<Msg>)
    requires |ids| == |A.Stored(turn)| && StampedAtPlaces(r, turn, ids, places, ms)
    requires forall i :: 0 <= i < |turn| && !turn[i].Answer? ==> i in places
    ensures ms == Stamp(r, turn, ids)
  {
    forall i | 0 <= i < |turn| ensures ms[i] == Stamp(r, turn, ids)[i] {
      StampAt(r, turn, ids, i);
    }
  }

  ghost predicate AreRowsOf(turn: seq<A.Message>, rows: seq<M.StoredMessage>, indexes: seq<nat>) {
    |indexes| == |rows| && forall k :: 0 <= k < |indexes| ==> A.IsRowOf(turn, k, rows[k], indexes[k])
  }

  method StampOne(r: Rendering, turn: seq<A.Message>, ids: seq<int>, ms: seq<Msg>, rows: seq<M.StoredMessage>,
                  indexes: seq<nat>, k: nat)
    returns (after: seq<Msg>)
    requires |ids| == |A.Stored(turn)| && AreRowsOf(turn, rows, indexes) && k < |indexes|
    requires StampedAtPlaces(r, turn, ids, indexes[..k], ms)
    ensures StampedAtPlaces(r, turn, ids, indexes[..k + 1], after)
  {
    var i := indexes[k];
    OneMorePlace(r, turn, ids, indexes[..k], ms, rows[k], k, i);
    assert indexes[..k + 1] == indexes[..k] + [i];
    return ms[i := ToMsg(r, turn[i], Some(ids[k]))];
  }

  // The stamping loop of log_turn: each row id goes to the message its row was made from.
  method StampTurn(r: Rendering, turn: seq<A.Message>, ids: seq<int>) returns (stamped: seq<Msg>)
    requires |ids| == |A.Stored(turn)|
    ensures stamped == Stamp(r, turn, ids)
  {
    var rows, indexes := A.ToStored(turn);
    assert AreRowsOf(turn, rows, indexes);
    stamped := Unstamped(r, turn, ids);
    for k := 0 to |indexes|
      invariant StampedAtPlaces(r, turn, ids, indexes[..k], stamped)
    {
      stamped := StampOne(r, turn, ids, stamped, rows, indexes, k);
    }
    assert indexes[..|indexes|] == indexes;
    AllPlaces(r, turn, ids, indexes, stamped);
  }

  ghost predicate Increasing(ids: seq<int>, above: int) {
    && (forall i :: 0 <= i < |ids| ==> above < ids[i])
    && (forall i, j :: 0 <= i < j < |ids| ==> ids[i] < ids[j])
  }

  function LastId(ms: seq<Msg>): int {
    if ms == [] then 0 else EffectiveId(ms, |ms| - 1)
  }

  lemma WellStampedMore(ms: seq<Msg>, m: Msg)
    requires WellStamped(ms)
    requires if m.kind == ToolResult then m.stamp.None? && ms != [] else m.stamp.Some? && LastId(ms) < m.stamp.value
    ensures WellStamped(ms + [m])
    ensures LastId(ms + [m]) == if m.stamp.Some? then m.stamp.value else LastId(ms)
  {
    var more := ms + [m];
    assert more[..|ms|] == ms;
    if ms != [] {
      EffectiveIdOfPrefix(more, |ms|, |ms| - 1);
    }
  }

  // Stamped with growing ids, a turn that begins with a stored message extends a well-stamped history.
  lemma {:induction false} StampExtends(r: Rendering, h: seq<Msg>, turn: seq<A.Message>, ids: seq<int>)
    requires WellStamped(h) && |ids| == |A.Stored(turn)| && Increasing(ids, LastId(h))
    requires turn != [] ==> !turn[0].Answer?
    ensures WellStamped(h + Stamp(r, turn, ids))
    ensures LastId(h + Stamp(r, turn, ids)) == if ids == [] then LastId(h) else ids[|ids| - 1]
  {
    if turn == [] {
      assert h + [] == h;
    } else {
      var n := |turn| - 1;
      var k := if turn[n].Answer? then |ids| else |ids| - 1;
      StampExtends(r, h, turn[..n], ids[..k]);
      StampOneMore(r, h, turn, ids, k, h + Stamp(r, turn[..n], ids[..k]));
    }
  }

  lemma StampOneMore(r: Rendering, h: seq<Msg>, turn: seq<A.Message>, ids: seq<int>, k: nat, before: seq<Msg>)
    requires |ids| == |A.Stored(turn)| && turn != []
    requires k == (if turn[|turn| - 1].Answer? then |ids| else |ids| - 1)
    requires before == h + Stamp(r, turn[..|turn| - 1], ids[..k]) && WellStamped(before)
    requires turn[|turn| - 1].Answer? ==> before != []
    requires !turn[|turn| - 1].Answer? ==> LastId(before) < ids[k]
    ensures var last := turn[|turn| - 1];
            h + Stamp(r, turn, ids) == before + [ToMsg(r, last, if last.Answer? then None else Some(ids[k]))]
    ensures WellStamped(h + Stamp(r, turn, ids))
    ensures LastId(h + Stamp(r, turn, ids)) == if turn[|turn| - 1].Answer? then LastId(before) else ids[k]
  {
    var last := turn[|turn| - 1];
    OneMoreStamp(r, before, last, ids, k);
    StampUnfolds(r, turn, ids, k);
    OneBehind(h, Stamp(r, turn[..|turn| - 1], ids[..k]), ToMsg(r, last, if last.Answer? then None else Some(ids[k])));
  }

  lemma StampUnfolds(r: Rendering, turn: seq<A.Message>, ids: seq<int>, k: nat)
    requires |ids| == |A.Stored(turn)| && turn != []
    requires k == (if turn[|turn| - 1].Answer? then |ids| else |ids| - 1)
    ensures var n := |turn| - 1;
            Stamp(r, turn, ids) == Stamp(r, turn[..n], ids[..k])
                                   + [ToMsg(r, turn[n], if turn[n].Answer? then None else Some(ids[k]))]
  {
    assert ids[..|ids|] == ids;
  }

  lemma OneBehind(a: seq<Msg>, b: seq<Msg>, m: Msg)
    ensures a + (b + [m]) == (a + b) + [m]
  {
  }

  lemma OneMoreStamp(r: Rendering, before: seq<Msg>, m: A.Message, ids: seq<int>, k: nat)
    requires WellStamped(before) && (m.Answer? ==> before != []) && k == (if m.Answer? then |ids| else |ids| - 1)
    requires !m.Answer? ==> LastId(before) < ids[k]
    ensures var after := before + [ToMsg(r, m, if m.Answer? then None else Some(ids[k]))];
            WellStamped(after) && LastId(after) == if m.Answer? then LastId(before) else ids[k]
  {
    WellStampedMore(before, ToMsg(r, m, if m.Answer? then None else Some(ids[k])));
  }

  // The stamps of a turn are exactly its row ids, each on a message of its row's role.
  lemma {:induction false} StampsOfTurn(r: Rendering, turn: seq<A.Message>, ids: seq<int>)
    requires |ids| == |A.Stored(turn)|
    ensures forall x :: Stamps(Stamp(r, turn, ids), x) <==> x in ids
    ensures forall i :: 0 <= i < |turn| && Stamp(r, turn, ids)[i].stamp.Some? ==>
              exists j :: 0 <= j < |ids| && StampedAs(Stamp(r, turn, ids)[i], ids[j], A.Stored(turn)[j])
  {
    if turn != [] {
      var n := |turn| - 1;
      var k := if turn[n].Answer? then |ids| else |ids| - 1;
      var init, ms, rows := Stamp(r, turn[..n], ids[..k]), Stamp(r, turn, ids), A.Stored(turn[..n]);
      assert ids[..|ids|] == ids;
      StampsOfTurn(r, turn[..n], ids[..k]);
      assert ms[..n] == init;
      forall x ensures Stamps(ms, x) <==> x in ids {
        StampsLast(ms, x);
        assert k < |ids| ==> ids == ids[..k] + [ids[k]];
      }
      forall i | 0 <= i < |turn| && ms[i].stamp.Some?
        ensures exists j :: 0 <= j < |ids| && StampedAs(ms[i], ids[j], A.Stored(turn)[j])
      {
        if i < n {
          var j :| 0 <= j < k && StampedAs(init[i], ids[..k][j], rows[j]);
          assert StampedAs(ms[i], ids[j], A.Stored(turn)[j]);
        } else {
          assert StampedAs(ms[i], ids[k], A.Stored(turn)[k]);
        }
      }
    }
  }

  ghost predicate StampedAs(m: Msg, id: int, row: M.StoredMessage) {
    m.stamp == Some(id) && (row.role == M.User <==> m.kind == Human)
  }

  lemma StampsLast(ms: seq<Msg>, x: int)
    requires ms != []
    ensures Stamps(ms, x) <==> Stamps(ms[..|ms| - 1], x) || ms[|ms| - 1].stamp == Some(x)
  {
    var init := ms[..|ms| - 1];
    if Stamps(ms, x) {
      var i :| 0 <= i < |ms| && ms[i].stamp == Some(x);
      assert i < |init| ==> init[i].stamp == Some(x);
    }
    if Stamps(init, x) {
      var i :| 0 <= i < |init| && init[i].stamp == Some(x);
      assert ms[i].stamp == Some(x);
    }
  }

  lemma StampsConcat(a: seq<Msg>, b: seq<Msg>, x: int)
    ensures Stamps(a + b, x) <==> Stamps(a, x) || Stamps(b, x)
  {
    if Stamps(a, x) {
      var i :| 0 <= i < |a| && a[i].stamp == Some(x);
      assert (a + b)[i].stamp == Some(x);
    }
    if Stamps(b, x) {
      var i :| 0 <= i < |b| && b[i].stamp == Some(x);
      assert (a + b)[|a| + i].stamp == Some(x);
    }
  }

  lemma StampsAreBounded(ms: seq<Msg>, x: int)
    requires WellStamped(ms) && Stamps(ms, x)
    ensures 0 < x <= LastId(ms)
  {
    var i :| 0 <= i < |ms| && ms[i].stamp == Some(x);
    WellStampedAt(ms, i);
    EffectiveIdsGrow(ms, i, |ms| - 1);
    var k := EffectiveIdSource(ms, i);
  }

  // ---------------------------------------------------------------- one step

  function Fresh(first: int, n: nat): (ids: seq<int>)
    ensures |ids| == n && forall i :: 0 <= i < n ==> ids[i] == first + i
  {
    seq(n, i requires 0 <= i < n => first + i)
  }

  // The prepared row's id, then the ids the commit gives the other rows.
  function RowIds(db: Ledger.Db, prepared: int, turn: seq<A.Message>): (ids: seq<int>)
    requires A.Stored(turn) != []
    ensures |ids| == |A.Stored(turn)|
  {
    [prepared] + Fresh(db.nextId, |A.Stored(turn)| - 1)
  }

  ghost predicate CanFinish(c: Config, w: World, turn: seq<A.Message>) {
    && w.pending.Some? && c.cid in w.db.conversations
    && A.Complete(turn, c.maxCalls) && !Blank(turn[0].text) && c.maxCalls <= Ledger.DB_MAX_TOOL_CALLS
  }

  ghost function Next(c: Config, w: World, e: Event): World {
    match e
    case Prepare(question) =>
      if c.cid in w.db.conversations && |question| <= c.maxChars
      then w.(db := Ledger.AppendUser(w.db, c.cid, question, c.maxChars), pending := Some(w.db.nextId)) else w
    case Finish(turn) =>
      if CanFinish(c, w, turn) then
        StoredStarts(turn, c.maxCalls);
        World(Ledger.CommitTurn(w.db, c.cid, A.Stored(turn), w.pending),
              w.history + Stamp(c.rendering, turn, RowIds(w.db, w.pending.value, turn)), None)
      else w
    case FinishUnsaved(turn) =>
      if CanFinish(c, w, turn)
      then w.(db := Ledger.CommitTurn(w.db, c.cid, A.Stored(turn), w.pending), pending := None) else w
    case Abandon => w.(pending := None)
    case Elsewhere(other, messages) =>
      if other != c.cid then w.(db := Ledger.InsertRows(w.db, other, messages)) else w
    case MoveLayer1(conversation, owner, newId) => w.(db := Ledger.MoveLayer1(w.db, conversation, owner, newId))
    case AppendSummary(conversation, from, upto, content) =>
      if from < upto then w.(db := Ledger.AppendSummary(w.db, conversation, from, upto, content, c.tokens)) else w
  }

  lemma StoredStarts(turn: seq<A.Message>, maxCalls: nat)
    requires A.Complete(turn, maxCalls)
    ensures A.Stored(turn) != [] && A.Stored(turn)[0] == A.StoredRow(turn[0])
  {
    A.CompleteParts(turn, maxCalls);
  }

  ghost function Run(c: Config, w: World, events: seq<Event>): World {
    if events == [] then w else Next(c, Run(c, w, events[..|events| - 1]), events[|events| - 1])
  }

  // ---------------------------------------------------------------- invariant

  // The prepared row is the conversation's last and is not in the history yet.
  ghost predicate IsPending(rows: seq<Ledger.Row>, cid: int, ms: seq<Msg>, u: nat) {
    && u < |rows| && rows[u].conversation == cid && rows[u].message.role == M.User && LastId(ms) < rows[u].id
    && forall v :: u < v < |rows| ==> rows[v].conversation != cid
  }

  ghost predicate PendingOk(rows: seq<Ledger.Row>, cid: int, ms: seq<Msg>, id: int) {
    exists u: nat :: IsPending(rows, cid, ms, u) && rows[u].id == id
  }

  ghost predicate Inv(c: Config, w: World) {
    && Ledger.Wf(w.db, c.tokens) && WellStamped(w.history) && LedgerBehind(w.db.rows, c.cid, w.history)
    && LastId(w.history) < w.db.nextId && ToolRowsInside(w.db.rows, c.cid)
    && (w.pending.Some? ==> PendingOk(w.db.rows, c.cid, w.history, w.pending.value))
  }

  // New rows that either belong to other conversations, or begin with a user row, or follow one the history lacks,
  // leave the ledger behind the history.
  lemma BehindMoreRows(rows: seq<Ledger.Row>, more: seq<Ledger.Row>, cid: int, ms: seq<Msg>)
    requires LedgerBehind(rows, cid, ms)
    requires forall k :: 0 <= k < |more| ==> !Stamps(ms, more[k].id)
    requires (forall k :: 0 <= k < |more| && more[k].conversation == cid ==> more[k].message.role == M.User)
             || LastRowUnstamped(rows, cid, ms)
    ensures LedgerBehind(rows + more, cid, ms)
  {
    var all := rows + more;
    forall i | 0 <= i < |ms| && ms[i].stamp.Some? ensures Ledger.HasRow(all, cid, ms[i].stamp.value) {
      var k :| 0 <= k < |rows| && rows[k].id == ms[i].stamp.value && rows[k].conversation == cid;
      assert all[k] == rows[k];
    }
    forall k | |rows| <= k < |all| ensures !Stamps(ms, all[k].id) {
      assert all[k] == more[k - |rows|];
    }
    forall k, i | 0 <= k < |all| && 0 <= i < |ms| && ms[i].stamp == Some(all[k].id)
      ensures all[k].message.role == M.User <==> ms[i].kind == Human
    {
      assert Stamps(ms, all[k].id);
    }
    forall p: nat, k: nat | Adjacent(all, cid, p, k) && all[k].message.role != M.User && !Stamps(ms, all[k].id)
      ensures !Stamps(ms, all[p].id)
    {
      if k < |rows| {
        assert forall v :: 0 <= v < |rows| ==> (IsSpeechRow(rows, cid, v) <==> IsSpeechRow(all, cid, v));
        assert Adjacent(rows, cid, p, k);
      } else if p < |rows| {
        assert all[k] == more[k - |rows|];
        assert forall v :: 0 <= v < |rows| ==> (IsSpeechRow(rows, cid, v) <==> IsSpeechRow(all, cid, v));
      } else {
        assert all[p] == more[p - |rows|];
      }
    }
  }

  ghost predicate IsLast(rows: seq<Ledger.Row>, cid: int, p: int) {
    0 <= p < |rows| && rows[p].conversation == cid && forall v :: p < v < |rows| ==> !IsSpeechRow(rows, cid, v)
  }

  ghost predicate LastRowUnstamped(rows: seq<Ledger.Row>, cid: int, ms: seq<Msg>) {
    forall p :: IsLast(rows, cid, p) ==> !Stamps(ms, rows[p].id)
  }

  lemma ToolRowsInsideMore(rows: seq<Ledger.Row>, more: seq<Ledger.Row>, cid: int)
    requires ToolRowsInside(rows, cid)
    requires forall k :: 0 <= k < |more| && more[k].conversation == cid ==> more[k].message.role != M.Tool
    ensures ToolRowsInside(rows + more, cid)
  {
    var all := rows + more;
    forall k | |rows| <= k < |all| ensures all[k].conversation != cid || all[k].message.role != M.Tool {
      assert all[k] == more[k - |rows|];
    }
    forall k | 0 <= k < |rows| && all[k].conversation == cid && all[k].message.role == M.Tool
      ensures IsFollowed(all, cid, k)
    {
      assert IsFollowed(rows, cid, k);
      var v: nat :| IsNext(rows, cid, k, v) && rows[v].message.role != M.User;
      assert IsNext(all, cid, k, v) && all[v] == rows[v];
    }
  }

  lemma InsertKeepsToolsInside(db: Ledger.Db, cid: int, messages: seq<M.StoredMessage>)
    requires ToolRowsInside(db.rows, cid) && NoTools(messages)
    ensures ToolRowsInside(Ledger.InsertRows(db, cid, messages).rows, cid)
  {
    ToolRowsInsideMore(db.rows, Ledger.NewRows(messages, cid, db.nextId), cid);
  }

  ghost predicate NoTools(messages: seq<M.StoredMessage>) {
    forall i :: 0 <= i < |messages| ==> messages[i].role != M.Tool
  }

  lemma FreshIsUnstamped(c: Config, w: World, x: int)
    requires Inv(c, w) && x >= w.db.nextId
    ensures !Stamps(w.history, x)
  {
    if Stamps(w.history, x) {
      StampsAreBounded(w.history, x);
    }
  }

  lemma InsertKeepsInv(c: Config, w: World, conversation: int, messages: seq<M.StoredMessage>)
    requires Inv(c, w)
    requires conversation == c.cid ==>
               && w.pending.None? && NoTools(messages)
               && ((forall i :: 0 <= i < |messages| ==> messages[i].role == M.User)
                   || LastRowUnstamped(w.db.rows, c.cid, w.history))
    ensures Inv(c, w.(db := Ledger.InsertRows(w.db, conversation, messages)))
  {
    var more := Ledger.NewRows(messages, conversation, w.db.nextId);
    Ledger.InsertRowsKeepsWf(w.db, conversation, messages, c.tokens);
    forall k | 0 <= k < |more| ensures !Stamps(w.history, more[k].id) {
      FreshIsUnstamped(c, w, more[k].id);
    }
    BehindMoreRows(w.db.rows, more, c.cid, w.history);
    ToolRowsInsideMore(w.db.rows, more, c.cid);
    if w.pending.Some? {
      var u: nat :| IsPending(w.db.rows, c.cid, w.history, u) && w.db.rows[u].id == w.pending.value;
      assert IsPending(w.db.rows + more, c.cid, w.history, u);
    }
  }

  lemma PrepareKeepsInv(c: Config, w: World, question: string)
    requires Inv(c, w) && c.cid in w.db.conversations && |question| <= c.maxChars
    ensures Inv(c, Next(c, w, Prepare(question)))
  {
    InsertKeepsInv(c, w.(pending := None), c.cid, [Ledger.UserMessage(question)]);
    var rows := Ledger.AppendUser(w.db, c.cid, question, c.maxChars).rows;
    assert rows[|w.db.rows|].id == w.db.nextId;
    assert IsPending(rows, c.cid, w.history, |w.db.rows|);
  }

  lemma PendingIsUnstamped(c: Config, w: World)
    requires Inv(c, w) && w.pending.Some?
    ensures LastRowUnstamped(w.db.rows, c.cid, w.history)
  {
    var u: nat :| IsPending(w.db.rows, c.cid, w.history, u) && w.db.rows[u].id == w.pending.value;
    assert IsSpeechRow(w.db.rows, c.cid, u);
    forall p | IsLast(w.db.rows, c.cid, p)
      ensures !Stamps(w.history, w.db.rows[p].id)
    {
      assert p == u;
      if Stamps(w.history, w.db.rows[p].id) {
        StampsAreBounded(w.history, w.db.rows[p].id);
      }
    }
  }

  lemma ValidTurnHasNoTools(messages: seq<M.StoredMessage>)
    requires M.ValidTurn(messages, Ledger.DB_MAX_TOOL_CALLS)
    ensures NoTools(messages)
  {
  }

  lemma StoredIsCommitted(c: Config, w: World, turn: seq<A.Message>)
    requires CanFinish(c, w, turn)
    ensures A.Stored(turn) != [] && NoTools(A.Stored(turn)) && NoTools(A.Stored(turn)[1..])
    ensures Ledger.CommitTurn(w.db, c.cid, A.Stored(turn), w.pending)
            == Ledger.InsertRows(w.db, c.cid, A.Stored(turn)[1..])
  {
    StoredStarts(turn, c.maxCalls);
    A.FewCallsFit(turn, c.maxCalls, Ledger.DB_MAX_TOOL_CALLS);
    A.StoredIsValidIff(turn, c.maxCalls, Ledger.DB_MAX_TOOL_CALLS);
    ValidTurnHasNoTools(A.Stored(turn));
  }

  lemma FinishUnsavedKeepsInv(c: Config, w: World, turn: seq<A.Message>)
    requires Inv(c, w) && CanFinish(c, w, turn)
    ensures Inv(c, Next(c, w, FinishUnsaved(turn)))
  {
    StoredIsCommitted(c, w, turn);
    PendingIsUnstamped(c, w);
    InsertKeepsInv(c, w.(pending := None), c.cid, A.Stored(turn)[1..]);
  }

  // ---------------------------------------------------------------- a finished turn

  // The rows of the turn: the prepared one, and those the commit adds behind all others.
  ghost predicate RowsOfTurn(rows: seq<Ledger.Row>, cid: int, u: nat, first: nat, ids: seq<int>,
                             stored: seq<M.StoredMessage>) {
    && |ids| == |stored| > 0 && u < first && |rows| == first + |ids| - 1
    && rows[u].id == ids[0] && rows[u].conversation == cid
       && (rows[u].message.role == M.User <==> stored[0].role == M.User)
    && forall j :: 1 <= j < |ids| ==> rows[first + j - 1] == Ledger.Row(ids[j], cid, stored[j])
  }

  lemma RowAt(rows: seq<Ledger.Row>, nextId: int, cid: int, u: nat, first: nat, ids: seq<int>,
              stored: seq<M.StoredMessage>, j: nat) returns (k: nat)
    requires Ledger.RowsInOrder(rows, nextId) && RowsOfTurn(rows, cid, u, first, ids, stored) && j < |ids|
    ensures k == (if j == 0 then u else first + j - 1)
    ensures k < |rows| && rows[k].id == ids[j] && rows[k].conversation == cid
    ensures rows[k].message.role == M.User <==> stored[j].role == M.User
    ensures forall v :: 0 <= v < |rows| && rows[v].id == ids[j] ==> v == k
  {
    k := if j == 0 then u else first + j - 1;
    forall v | 0 <= v < |rows| && rows[v].id == ids[j] ensures v == k {
      assert v < k || v == k || k < v;
    }
  }

  // Behind a history that takes a whole turn in, with all its rows stamped, the ledger is in order again.
  lemma BehindTurn(rows: seq<Ledger.Row>, nextId: int, cid: int, h: seq<Msg>, r: Rendering, turn: seq<A.Message>,
                   ids: seq<int>, u: nat, first: nat)
    requires Ledger.RowsInOrder(rows, nextId) && first <= |rows| && LedgerBehind(rows[..first], cid, h)
    requires |ids| == |A.Stored(turn)| && RowsOfTurn(rows, cid, u, first, ids, A.Stored(turn))
    requires IsPending(rows[..first], cid, h, u) && (forall x :: Stamps(h, x) ==> x <= LastId(h))
    requires Increasing(ids, LastId(h))
    ensures LedgerBehind(rows, cid, h + Stamp(r, turn, ids))
  {
    var s := Stamp(r, turn, ids);
    StampsOfTurn(r, turn, ids);
    forall x ensures Stamps(h + s, x) <==> Stamps(h, x) || x in ids {
      StampsConcat(h, s, x);
    }
    TurnStampsHaveRows(rows, nextId, cid, h, r, turn, ids, u, first);
    TurnRoles(rows, nextId, cid, h, r, turn, ids, u, first);
    forall p: nat, k: nat | Adjacent(rows, cid, p, k) && rows[k].message.role != M.User && !Stamps(h + s, rows[k].id)
      ensures !Stamps(h + s, rows[p].id)
    {
      UnstampedIsOld(rows, cid, ids, u, first, A.Stored(turn), k);
      TurnUnstamped(rows, nextId, cid, h, ids, A.Stored(turn), u, first, p, k);
    }
  }

  lemma NewRowIds(rows: seq<Ledger.Row>, cid: int, ids: seq<int>, u: nat, first: nat, stored: seq<M.StoredMessage>)
    requires RowsOfTurn(rows, cid, u, first, ids, stored)
    ensures forall k :: first <= k < |rows| ==> rows[k].id == ids[k - first + 1]
  {
    forall k | first <= k < |rows| ensures rows[k].id == ids[k - first + 1] {
      assert rows[first + (k - first + 1) - 1].id == ids[k - first + 1];
    }
  }

  lemma UnstampedIsOld(rows: seq<Ledger.Row>, cid: int, ids: seq<int>, u: nat, first: nat,
                       stored: seq<M.StoredMessage>, k: nat)
    requires RowsOfTurn(rows, cid, u, first, ids, stored) && k < |rows| && rows[k].id !in ids
    ensures k < first
  {
    NewRowIds(rows, cid, ids, u, first, stored);
  }

  // An old row that the history lacks follows only rows that it lacks.
  lemma TurnUnstamped(rows: seq<Ledger.Row>, nextId: int, cid: int, h: seq<Msg>, ids: seq<int>,
                      stored: seq<M.StoredMessage>, u: nat, first: nat, p: nat, k: nat)
    requires Ledger.RowsInOrder(rows, nextId) && first <= |rows| && LedgerBehind(rows[..first], cid, h)
    requires RowsOfTurn(rows, cid, u, first, ids, stored) && IsPending(rows[..first], cid, h, u)
    requires k < first && Adjacent(rows, cid, p, k) && rows[k].message.role != M.User && !Stamps(h, rows[k].id)
    ensures !Stamps(h, rows[p].id) && rows[p].id !in ids
  {
    var before := rows[..first];
    assert forall v :: 0 <= v < first ==> before[v] == rows[v];
    assert forall v :: 0 <= v < first ==> (IsSpeechRow(before, cid, v) <==> IsSpeechRow(rows, cid, v));
    assert Adjacent(before, cid, p, k);
    assert p != u;
    forall j | 0 <= j < |ids| ensures ids[j] != rows[p].id {
      var q := RowAt(rows, nextId, cid, u, first, ids, stored, j);
    }
  }

  lemma TurnStampsHaveRows(rows: seq<Ledger.Row>, nextId: int, cid: int, h: seq<Msg>, r: Rendering,
                           turn: seq<A.Message>, ids: seq<int>, u: nat, first: nat)
    requires Ledger.RowsInOrder(rows, nextId) && first <= |rows| && LedgerBehind(rows[..first], cid, h)
    requires |ids| == |A.Stored(turn)| && RowsOfTurn(rows, cid, u, first, ids, A.Stored(turn))
    ensures var ms := h + Stamp(r, turn, ids);
            forall i :: 0 <= i < |ms| && ms[i].stamp.Some? ==> Ledger.HasRow(rows, cid, ms[i].stamp.value)
  {
    var s := Stamp(r, turn, ids);
    var ms := h + s;
    StampsOfTurn(r, turn, ids);
    forall i | 0 <= i < |ms| && ms[i].stamp.Some? ensures Ledger.HasRow(rows, cid, ms[i].stamp.value) {
      if i < |h| {
        assert Ledger.HasRow(rows[..first], cid, h[i].stamp.value);
        var k :| 0 <= k < first && rows[..first][k].id == h[i].stamp.value && rows[..first][k].conversation == cid;
        assert rows[k].id == h[i].stamp.value;
      } else {
        var j :| 0 <= j < |ids| && StampedAs(s[i - |h|], ids[j], A.Stored(turn)[j]);
        var k := RowAt(rows, nextId, cid, u, first, ids, A.Stored(turn), j);
      }
    }
  }

  lemma TurnRoles(rows: seq<Ledger.Row>, nextId: int, cid: int, h: seq<Msg>, r: Rendering, turn: seq<A.Message>,
                  ids: seq<int>, u: nat, first: nat)
    requires Ledger.RowsInOrder(rows, nextId) && first <= |rows| && LedgerBehind(rows[..first], cid, h)
    requires |ids| == |A.Stored(turn)| && RowsOfTurn(rows, cid, u, first, ids, A.Stored(turn))
    requires (forall x :: Stamps(h, x) ==> x <= LastId(h)) && Increasing(ids, LastId(h))
    ensures var ms := h + Stamp(r, turn, ids);
            forall k, i :: 0 <= k < |rows| && 0 <= i < |ms| && ms[i].stamp == Some(rows[k].id) ==>
              (rows[k].message.role == M.User <==> ms[i].kind == Human)
  {
    var s := Stamp(r, turn, ids);
    var ms := h + s;
    StampsOfTurn(r, turn, ids);
    forall k, i | 0 <= k < |rows| && 0 <= i < |ms| && ms[i].stamp == Some(rows[k].id)
      ensures rows[k].message.role == M.User <==> ms[i].kind == Human
    {
      if i < |h| {
        assert Stamps(h, rows[k].id);
        OldStampOldRow(rows, cid, h, ids, A.Stored(turn), u, first, k);
        assert rows[..first][k] == rows[k];
      } else {
        var j :| 0 <= j < |ids| && StampedAs(s[i - |h|], ids[j], A.Stored(turn)[j]);
        var q := RowAt(rows, nextId, cid, u, first, ids, A.Stored(turn), j);
        assert q == k;
      }
    }
  }

  lemma OldStampOldRow(rows: seq<Ledger.Row>, cid: int, h: seq<Msg>, ids: seq<int>, stored: seq<M.StoredMessage>,
                       u: nat, first: nat, k: nat)
    requires RowsOfTurn(rows, cid, u, first, ids, stored) && k < |rows| && rows[k].id <= LastId(h)
            && Increasing(ids, LastId(h))
    ensures k < first
  {
    NewRowIds(rows, cid, ids, u, first, stored);
  }

  lemma FinishKeepsInv(c: Config, w: World, turn: seq<A.Message>)
    requires Inv(c, w) && CanFinish(c, w, turn)
    ensures Inv(c, Next(c, w, Finish(turn)))
  {
    var w' := Next(c, w, Finish(turn));
    var u: nat :| IsPending(w.db.rows, c.cid, w.history, u) && w.db.rows[u].id == w.pending.value;
    StoredIsCommitted(c, w, turn);
    StoredStarts(turn, c.maxCalls);
    var stored, ids := A.Stored(turn), RowIds(w.db, w.pending.value, turn);
    assert Increasing(ids, LastId(w.history));
    Ledger.InsertRowsKeepsWf(w.db, c.cid, stored[1..], c.tokens);
    StampExtends(c.rendering, w.history, turn, ids);
    assert w'.db.rows[..|w.db.rows|] == w.db.rows;
    forall x | Stamps(w.history, x) ensures x <= LastId(w.history) {
      StampsAreBounded(w.history, x);
    }
    TurnRowsAre(c, w, turn, u);
    InsertKeepsToolsInside(w.db, c.cid, stored[1..]);
    BehindTurn(w'.db.rows, w'.db.nextId, c.cid, w.history, c.rendering, turn, ids, u, |w.db.rows|);
  }

  lemma TurnRowsAre(c: Config, w: World, turn: seq<A.Message>, u: nat)
    requires CanFinish(c, w, turn) && A.Stored(turn) != [] && A.Stored(turn)[0] == A.StoredRow(turn[0])
    requires IsPending(w.db.rows, c.cid, w.history, u) && w.db.rows[u].id == w.pending.value
    ensures RowsOfTurn(Ledger.InsertRows(w.db, c.cid, A.Stored(turn)[1..]).rows, c.cid, u, |w.db.rows|,
                       RowIds(w.db, w.pending.value, turn), A.Stored(turn))
  {
  }

  // ---------------------------------------------------------------- every step, every run

  lemma StepKeepsInv(c: Config, w: World, e: Event)
    requires Inv(c, w)
    ensures Inv(c, Next(c, w, e))
  {
    match e
    case Prepare(question) =>
      if c.cid in w.db.conversations && |question| <= c.maxChars { PrepareKeepsInv(c, w, question); }
    case Finish(turn) => if CanFinish(c, w, turn) { FinishKeepsInv(c, w, turn); }
    case FinishUnsaved(turn) => if CanFinish(c, w, turn) { FinishUnsavedKeepsInv(c, w, turn); }
    case Abandon =>
    case Elsewhere(other, messages) => if other != c.cid { InsertKeepsInv(c, w, other, messages); }
    case MoveLayer1(conversation, owner, newId) =>
      Ledger.MoveLayer1KeepsWf(w.db, conversation, owner, newId, c.tokens);
    case AppendSummary(conversation, from, upto, content) =>
      if from < upto && Ledger.AppendSummaryResult(w.db, conversation, from, upto).Applied? {
        Ledger.AppendSummaryKeepsWfIff(w.db, conversation, from, upto, content, c.tokens);
      }
  }

  // ---------------------------------------------------------------- what a turn records

  // The database after a question was prepared and its turn committed: one row after another, in the order of the turn.
  ghost predicate AreTurnRows(before: Ledger.Db, after: Ledger.Db, cid: int, stored: seq<M.StoredMessage>) {
    && |after.rows| == |before.rows| + |stored| && after.rows[..|before.rows|] == before.rows
    && after.nextId == before.nextId + |stored|
    && (forall j :: 0 <= j < |stored| ==>
          after.rows[|before.rows| + j] == Ledger.Row(before.nextId + j, cid, stored[j]))
    && after.conversations == before.conversations && after.segments == before.segments
  }

  ghost predicate AsksAndAnswers(c: Config, w: World, question: string, turn: seq<A.Message>) {
    && c.cid in w.db.conversations && |question| <= c.maxChars && !Blank(question)
    && c.maxCalls <= Ledger.DB_MAX_TOOL_CALLS && A.Complete(turn, c.maxCalls) && turn[0] == A.Human(question)
  }

  lemma RowsInTwoSteps(db: Ledger.Db, cid: int, stored: seq<M.StoredMessage>)
    requires stored != []
    ensures AreTurnRows(db, Ledger.InsertRows(Ledger.InsertRows(db, cid, [stored[0]]), cid, stored[1..]), cid, stored)
  {
  }

  lemma FinishDoes(c: Config, w: World, turn: seq<A.Message>)
    requires CanFinish(c, w, turn)
    ensures A.Stored(turn) != []
    ensures Next(c, w, Finish(turn))
            == World(Ledger.InsertRows(w.db, c.cid, A.Stored(turn)[1..]),
                     w.history + Stamp(c.rendering, turn, RowIds(w.db, w.pending.value, turn)), None)
  {
    StoredIsCommitted(c, w, turn);
  }

  lemma PrepareDoes(c: Config, w: World, question: string)
    requires c.cid in w.db.conversations && |question| <= c.maxChars
    ensures Next(c, w, Prepare(question))
            == World(Ledger.InsertRows(w.db, c.cid, [Ledger.UserMessage(question)]), w.history, Some(w.db.nextId))
  {
  }

  lemma PrepareThenFinish(c: Config, w: World, question: string, turn: seq<A.Message>)
    requires AsksAndAnswers(c, w, question, turn)
    ensures A.Stored(turn) != []
    ensures Next(c, Next(c, w, Prepare(question)), Finish(turn))
            == World(Ledger.InsertRows(Ledger.InsertRows(w.db, c.cid, [A.Stored(turn)[0]]), c.cid, A.Stored(turn)[1..]),
                     w.history + Stamp(c.rendering, turn, Fresh(w.db.nextId, |A.Stored(turn)|)), None)
  {
    var stored := A.Stored(turn);
    var asked := World(Ledger.InsertRows(w.db, c.cid, [Ledger.UserMessage(question)]), w.history, Some(w.db.nextId));
    PrepareDoes(c, w, question);
    assert CanFinish(c, asked, turn);
    FinishDoes(c, asked, turn);
    StoredStarts(turn, c.maxCalls);
    assert stored[0] == Ledger.UserMessage(question);
    assert RowIds(asked.db, w.db.nextId, turn) == Fresh(w.db.nextId, |stored|);
  }

  // A question and its finished turn: the ledger has the rows of the turn behind all others, and the history has its
  // messages, each with the id of the very row it was stored as (see RecordedStamps).
  lemma FinishedTurnIsRecorded(c: Config, w: World, question: string, turn: seq<A.Message>)
    requires AsksAndAnswers(c, w, question, turn)
    ensures var w' := Next(c, Next(c, w, Prepare(question)), Finish(turn));
            && AreTurnRows(w.db, w'.db, c.cid, A.Stored(turn)) && w'.pending.None?
            && w'.history == w.history + Stamp(c.rendering, turn, Fresh(w.db.nextId, |A.Stored(turn)|))
  {
    PrepareThenFinish(c, w, question, turn);
    RowsInTwoSteps(w.db, c.cid, A.Stored(turn));
  }

  // With those rows and those stamps, message i of the turn has the id of the row behind those of the messages before
  // it, which says what the message says, unless it is a tool answer.
  lemma RecordedStamps(r: Rendering, before: Ledger.Db, after: Ledger.Db, cid: int, turn: seq<A.Message>, i: nat)
    requires AreTurnRows(before, after, cid, A.Stored(turn)) && i < |turn| && !turn[i].Answer?
    ensures var k := |A.Stored(turn[..i])|;
            && k < |A.Stored(turn)|
            && var row := after.rows[|before.rows| + k];
               Stamp(r, turn, Fresh(before.nextId, |A.Stored(turn)|))[i].stamp == Some(row.id)
               && row.message == A.StoredRow(turn[i])
  {
    var k := |A.Stored(turn[..i])|;
    RowOfMessage(turn, i);
    StampAt(r, turn, Fresh(before.nextId, |A.Stored(turn)|), i);
    assert after.rows[|before.rows| + k] == Ledger.Row(before.nextId + k, cid, A.Stored(turn)[k]);
  }

  lemma {:induction false} RowOfMessage(turn: seq<A.Message>, i: nat)
    requires i < |turn| && !turn[i].Answer?
    ensures |A.Stored(turn[..i])| < |A.Stored(turn)|
    ensures A.Stored(turn)[|A.Stored(turn[..i])|] == A.StoredRow(turn[i])
  {
    var n := |turn| - 1;
    if i < n {
      RowOfMessage(turn[..n], i);
      assert turn[..n][..i] == turn[..i];
    }
  }

  lemma {:induction false} RunKeepsInv(c: Config, w: World, events: seq<Event>)
    requires Inv(c, w)
    ensures Inv(c, Run(c, w, events))
  {
    if events != [] {
      RunKeepsInv(c, w, events[..|events| - 1]);
      StepKeepsInv(c, Run(c, w, events[..|events| - 1]), events[|events| - 1]);
    }
  }

  // Where runs begin: a conversation the graph knows nothing of yet, whatever its ledger holds, such as a new one;
  lemma EmptyHistoryInv(c: Config, db: Ledger.Db)
    requires Ledger.Wf(db, c.tokens) && ToolRowsInside(db.rows, c.cid)
    ensures Inv(c, World(db, [], None))
  {
  }

  lemma NewConversationInv(c: Config, owner: string)
    ensures Inv(c, World(Ledger.Db(map[c.cid := Ledger.Conversation(owner, None, None, None)], [], map[], 1), [], None))
  {
    EmptyHistoryInv(c, Ledger.Db(map[c.cid := Ledger.Conversation(owner, None, None, None)], [], map[], 1));
  }

  // or an old checkpoint that could be aligned with the ledger.
  lemma RestampedInv(c: Config, db: Ledger.Db, reading: Reading, ms: seq<Msg>)
    requires Ledger.Wf(db, c.tokens) && ToolRowsInside(db.rows, c.cid)
    requires IsCheckpoint(ms) && Aligned(ms, RecordsOf(db.rows, c.cid, reading))
    ensures Inv(c, World(db, Restamp(ms, SpeechOf(db.rows, c.cid, reading)), None))
  {
    var out := Restamp(ms, SpeechOf(db.rows, c.cid, reading));
    RestampIsBehind(db.rows, db.nextId, c.cid, reading, ms);
    LastIdIsOld(db.rows, db.nextId, c.cid, out);
  }

  lemma LastIdIsOld(rows: seq<Ledger.Row>, nextId: int, cid: int, ms: seq<Msg>)
    requires Ledger.RowsInOrder(rows, nextId) && 0 < nextId && WellStamped(ms) && LedgerBehind(rows, cid, ms)
    ensures LastId(ms) < nextId
  {
    if ms != [] {
      var p := EffectiveIdSource(ms, |ms| - 1);
      assert Ledger.HasRow(rows, cid, ms[p].stamp.value);
    }
  }

  // Main result: along every run of a conversation, with turns finished, abandoned, or committed without their
  // checkpoint, other conversations writing in between, anchors moving and summaries appended, whenever the cut
  // chooser proposes an anchor the database accepts it.
  lemma CutIsNeverRefused(c: Config, w: World, events: seq<Event>, budget: int)
    requires Inv(c, w)
    requires var db := Run(c, w, events).db;
             && c.cid in db.conversations
             && Degrade(Run(c, w, events).history, db.conversations[c.cid].layer1From, budget).Some?
    ensures var w' := Run(c, w, events);
            var conversation := w'.db.conversations[c.cid];
            var anchor := Degrade(w'.history, conversation.layer1From, budget).value;
            && Ledger.MoveAccepted(w'.db, c.cid, conversation.owner, anchor)
            && Next(c, w', MoveLayer1(c.cid, conversation.owner, anchor)).db.conversations[c.cid]
               == conversation.(layer1From := Some(anchor))
  {
    RunKeepsInv(c, w, events);
    var w' := Run(c, w, events);
    DegradeIsAccepted(w'.db, c.tokens, c.cid, w'.db.conversations[c.cid].owner, w'.history, budget);
  }
}
