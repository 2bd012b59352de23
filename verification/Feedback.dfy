/** Which answers take feedback (app/services/feedback.py): the check made when feedback arrives, the marks put on the
    message list, and that the two agree on every ledger the store can produce. The check looks for the question in
    front of a row and for a later answer before the next one; the marks go to the last answer of every interval
    between two questions. */
module Feedback {
  import opened Basics
  import opened Messages
  import opened Ledger

  const BEYOND_ALL_IDS := 0x4000000000000000

  // The rows of one conversation, by id.
  function ConversationRows(rows: seq<Row>, cid: int): seq<Row> {
    if rows == [] then []
    else
      ConversationRows(rows[..|rows| - 1], cid)
      + if rows[|rows| - 1].conversation == cid then [rows[|rows| - 1]] else []
  }

  ghost predicate InOrder(rows: seq<Row>) {
    && (forall i :: 0 <= i < |rows| ==> 0 < rows[i].id < BEYOND_ALL_IDS)
    && (forall i, j :: 0 <= i < j < |rows| ==> rows[i].id < rows[j].id)
  }

  predicate IsUser(rows: seq<Row>, i: int) {
    0 <= i < |rows| && rows[i].message.role == User
  }

  // An assistant row with content and no tool calls: the column is NULL, an empty list is not.
  predicate IsCandidate(rows: seq<Row>, i: int) {
    0 <= i < |rows| && rows[i].message.role == Assistant && rows[i].message.content.Some?
        && rows[i].message.toolCalls.None?
  }

  // No candidate follows before the next user row.
  ghost predicate IsLastOfTurn(rows: seq<Row>, i: int) {
    forall j :: i < j && IsCandidate(rows, j) ==> exists k :: i < k < j && IsUser(rows, k)
  }

  ghost predicate HasUserBefore(rows: seq<Row>, i: int) {
    exists k :: k < i && IsUser(rows, k)
  }

  // The answer a reader sees at the end of a turn.
  ghost predicate IsAccepted(rows: seq<Row>, i: int) {
    IsCandidate(rows, i) && HasText(rows[i].message) && HasUserBefore(rows, i) && IsLastOfTurn(rows, i)
  }

  // What the list marks.
  ghost predicate IsMarked(rows: seq<Row>, i: int) {
    IsCandidate(rows, i) && IsLastOfTurn(rows, i)
  }

  datatype Verdict = NotInConversation | NotAnAnswer | NoQuestion | NotTheLast | Accepted(turnId: int, question: string)

  function OptionalCalls(m: StoredMessage): bool {
    m.toolCalls.Some? && m.toolCalls.value != []
  }

  // _validate_turn, on the rows of a conversation that is the caller's.
  method ValidateTurn(rows: seq<Row>, aid: int) returns (v: Verdict)
    requires InOrder(rows)
    ensures v.NotInConversation? <==> forall i :: 0 <= i < |rows| ==> rows[i].id != aid
    ensures forall i :: 0 <= i < |rows| && rows[i].id == aid ==> (v.Accepted? <==> IsAccepted(rows, i))
    ensures v.Accepted? ==> exists i, k :: 0 <= k < i < |rows| && rows[i].id == aid && IsLatestUser(rows, k, i)
                                           && v.turnId == rows[k].id && v.question == TextOf(rows[k].message)
  {
    var i := 0;
    while i < |rows| && rows[i].id != aid
      invariant 0 <= i <= |rows| && forall k :: 0 <= k < i ==> rows[k].id != aid
    {
      i := i + 1;
    }
    if i == |rows| {
      return NotInConversation;
    }
    var m := rows[i].message;
    if m.role != Assistant || !HasText(m) || OptionalCalls(m) {
      return NotAnAnswer;
    }
    var p := PreviousUser(rows, i);
    if p < 0 {
      return NoQuestion;
    }
    var next := NextUser(rows, i);
    var last := LastCandidate(rows, p, next);
    if last != i {
      NotTheLastOf(rows, i, p, next, last);
      return NotTheLast;
    }
    assert IsLastOfTurn(rows, i);
    return Accepted(rows[p].id, TextOf(rows[p].message));
  }

  ghost predicate IsLatestUser(rows: seq<Row>, k: int, i: int) {
    k < i && IsUser(rows, k) && forall j :: k < j < i ==> !IsUser(rows, j)
  }

  method PreviousUser(rows: seq<Row>, i: nat) returns (p: int)
    requires i < |rows|
    ensures -1 <= p < i && (forall j :: p < j < i ==> !IsUser(rows, j)) && (p >= 0 ==> IsUser(rows, p))
  {
    p := i - 1;
    while p >= 0 && !IsUser(rows, p)
      invariant -1 <= p < i && forall j :: p < j < i ==> !IsUser(rows, j)
    {
      p := p - 1;
    }
  }

  method NextUser(rows: seq<Row>, i: nat) returns (n: nat)
    requires i < |rows|
    ensures i < n <= |rows| && (forall j :: i < j < n ==> !IsUser(rows, j)) && (n < |rows| ==> IsUser(rows, n))
  {
    n := i + 1;
    while n < |rows| && !IsUser(rows, n)
      invariant i < n <= |rows| && forall j :: i < j < n ==> !IsUser(rows, j)
    {
      n := n + 1;
    }
  }

  // The last candidate strictly between two positions, or the lower one if there is none.
  method LastCandidate(rows: seq<Row>, lo: nat, hi: nat) returns (last: nat)
    requires lo < hi <= |rows|
    ensures lo <= last < hi && (forall j :: last < j < hi ==> !IsCandidate(rows, j))
    ensures last == lo || IsCandidate(rows, last)
  {
    last := hi - 1;
    while last > lo && !IsCandidate(rows, last)
      invariant lo <= last < hi && forall j :: last < j < hi ==> !IsCandidate(rows, j)
    {
      last := last - 1;
    }
  }

  lemma NotTheLastOf(rows: seq<Row>, i: nat, p: nat, next: nat, last: nat)
    requires p < i < next <= |rows| && p <= last < next && last != i
    requires forall j :: p < j < i ==> !IsUser(rows, j)
    requires forall j :: i < j < next ==> !IsUser(rows, j)
    requires forall j :: last < j < next ==> !IsCandidate(rows, j)
    requires last == p || IsCandidate(rows, last)
    ensures !IsAccepted(rows, i)
  {
    if last > i {
      assert IsCandidate(rows, last) && forall k :: i < k < last ==> !IsUser(rows, k);
    }
  }

  // ---------------------------------------------------------------- the marks on the message list

  // Ids of the marked rows below a bound.
  ghost function MarkedBelow(rows: seq<Row>, bound: int): set<int> {
    set i | 0 <= i < |rows| && IsMarked(rows, i) && rows[i].id < bound :: rows[i].id
  }

  // The query of annotate_messages.
  method CandidateIds(rows: seq<Row>) returns (ids: seq<int>)
    requires InOrder(rows)
    ensures forall x :: x in ids <==> exists i :: IsCandidate(rows, i) && rows[i].id == x
    ensures forall a, b :: 0 <= a < b < |ids| ==> ids[a] < ids[b]
  {
    ids := [];
    for i := 0 to |rows|
      invariant forall x :: x in ids <==> exists k :: 0 <= k < i && IsCandidate(rows, k) && rows[k].id == x
      invariant forall a :: 0 <= a < |ids| ==> forall k :: i <= k < |rows| ==> ids[a] < rows[k].id
      invariant forall a, b :: 0 <= a < b < |ids| ==> ids[a] < ids[b]
    {
      if IsCandidate(rows, i) {
        ids := ids + [rows[i].id];
      }
    }
  }

  // A user row of the message list: rows without content are not listed.
  predicate IsListedUser(rows: seq<Row>, i: int) {
    IsUser(rows, i) && rows[i].message.content.Some?
  }

  // The ids of the listed user rows.
  method UserBounds(rows: seq<Row>) returns (bounds: seq<int>)
    requires InOrder(rows)
    ensures forall a :: 0 <= a < |bounds| ==> 0 < bounds[a] < BEYOND_ALL_IDS
    ensures forall a, b :: 0 <= a < b < |bounds| ==> bounds[a] < bounds[b]
    ensures forall x :: x in bounds <==> exists i :: IsListedUser(rows, i) && rows[i].id == x
  {
    bounds := [];
    for i := 0 to |rows|
      invariant forall x :: x in bounds <==> exists k :: 0 <= k < i && IsListedUser(rows, k) && rows[k].id == x
      invariant forall a :: 0 <= a < |bounds| ==>
                  0 < bounds[a] < BEYOND_ALL_IDS && forall k :: i <= k < |rows| ==> bounds[a] < rows[k].id
      invariant forall a, b :: 0 <= a < b < |bounds| ==> bounds[a] < bounds[b]
    {
      if IsListedUser(rows, i) {
        bounds := bounds + [rows[i].id];
      }
    }
  }

  // The last id strictly between the two.
  method LastBetween(ids: seq<int>, lo: int, hi: int) returns (last: Option<int>)
    requires forall a, b :: 0 <= a < b < |ids| ==> ids[a] < ids[b]
    ensures last.None? <==> forall x :: x in ids ==> !(lo < x < hi)
    ensures last.Some? ==> last.value in ids && lo < last.value < hi
                           && forall x :: x in ids && lo < x < hi ==> x <= last.value
  {
    last := None;
    for a := 0 to |ids|
      invariant last.None? <==> forall b :: 0 <= b < a ==> !(lo < ids[b] < hi)
      invariant last.Some? ==> last.value in ids[..a] && lo < last.value < hi
                               && forall b :: 0 <= b < a && lo < ids[b] < hi ==> ids[b] <= last.value
    {
      if lo < ids[a] < hi {
        last := Some(ids[a]);
      }
    }
    assert ids[..|ids|] == ids;
  }

  // Between two neighbouring user rows the last candidate is the marked row.
  lemma IntervalMark(rows: seq<Row>, lo: int, hi: int, i: nat)
    requires InOrder(rows) && IsCandidate(rows, i) && lo < rows[i].id < hi
    requires forall k :: IsUser(rows, k) ==> rows[k].id <= lo || hi <= rows[k].id
    requires hi == BEYOND_ALL_IDS || exists k :: IsUser(rows, k) && rows[k].id == hi
    ensures IsMarked(rows, i) <==> forall j :: IsCandidate(rows, j) && lo < rows[j].id < hi ==> rows[j].id <= rows[i].id
  {
    if forall j :: IsCandidate(rows, j) && lo < rows[j].id < hi ==> rows[j].id <= rows[i].id {
      forall j | i < j && IsCandidate(rows, j) ensures exists k :: i < k < j && IsUser(rows, k) {
        assert rows[i].id < rows[j].id;
        var k :| IsUser(rows, k) && rows[k].id == hi;
        InOrderIndex(rows, i, k);
        InOrderIndex(rows, k, j);
      }
    }
  }

  lemma InOrderIndex(rows: seq<Row>, i: int, j: int)
    requires InOrder(rows) && 0 <= i < |rows| && 0 <= j < |rows|
    ensures rows[i].id < rows[j].id <==> i < j
    ensures rows[i].id == rows[j].id <==> i == j
  {
  }

  ghost predicate UsersListed(rows: seq<Row>) {
    forall i :: IsUser(rows, i) ==> rows[i].message.content.Some?
  }

  // One interval: what is marked below its end is what was marked below its start and its last candidate.
  lemma OneInterval(rows: seq<Row>, lo: int, hi: int, cands: seq<int>, last: Option<int>)
    requires InOrder(rows) && lo < hi
    requires lo == 0 || exists k :: IsUser(rows, k) && rows[k].id == lo
    requires hi == BEYOND_ALL_IDS || exists k :: IsUser(rows, k) && rows[k].id == hi
    requires forall k :: IsUser(rows, k) ==> rows[k].id <= lo || hi <= rows[k].id
    requires forall x :: x in cands <==> exists i :: IsCandidate(rows, i) && rows[i].id == x
    requires last.None? <==> forall x :: x in cands ==> !(lo < x < hi)
    requires last.Some? ==> last.value in cands && lo < last.value < hi
                            && forall x :: x in cands && lo < x < hi ==> x <= last.value
    ensures MarkedBelow(rows, hi) == MarkedBelow(rows, lo) + if last.Some? then {last.value} else {}
  {
    if last.Some? {
      var i :| IsCandidate(rows, i) && rows[i].id == last.value;
      forall j | IsCandidate(rows, j) && lo < rows[j].id < hi ensures rows[j].id <= rows[i].id {
        assert rows[j].id in cands;
      }
      IntervalMark(rows, lo, hi, i);
    }
    forall x | x in MarkedBelow(rows, hi) && x !in MarkedBelow(rows, lo) ensures last == Some(x) {
      var i :| 0 <= i < |rows| && IsMarked(rows, i) && rows[i].id < hi && rows[i].id == x;
      NotAUserId(rows, lo, i);
      assert x in cands;
      IntervalMark(rows, lo, hi, i);
      var j :| IsCandidate(rows, j) && rows[j].id == last.value;
    }
  }

  lemma NotAUserId(rows: seq<Row>, lo: int, i: nat)
    requires InOrder(rows) && IsMarked(rows, i) && (lo == 0 || exists k :: IsUser(rows, k) && rows[k].id == lo)
    ensures rows[i].id != lo
  {
    if lo != 0 {
      var k :| IsUser(rows, k) && rows[k].id == lo;
      InOrderIndex(rows, i, k);
    }
  }

  // annotate_messages: the last candidate of every interval between user rows.
  method AnnotateMessages(rows: seq<Row>) returns (finalIds: set<int>)
    requires InOrder(rows) && UsersListed(rows)
    ensures finalIds == MarkedBelow(rows, BEYOND_ALL_IDS)
  {
    var cands := CandidateIds(rows);
    var users := UserBounds(rows);
    var bounds := users + [BEYOND_ALL_IDS];
    finalIds := {};
    var lo := 0;
    for b := 0 to |bounds|
      invariant lo == (if b == 0 then 0 else bounds[b - 1]) && finalIds == MarkedBelow(rows, lo)
    {
      var hi := bounds[b];
      UserBoundsAround(rows, users, b);
      var last := LastBetween(cands, lo, hi);
      OneInterval(rows, lo, hi, cands, last);
      if last.Some? {
        finalIds := finalIds + {last.value};
      }
      lo := hi;
    }
  }

  // Interval b lies between neighbouring user rows, or before the first or behind the last.
  lemma UserBoundsAround(rows: seq<Row>, users: seq<int>, b: nat)
    requires InOrder(rows) && UsersListed(rows) && b <= |users|
    requires forall a :: 0 <= a < |users| ==> 0 < users[a] < BEYOND_ALL_IDS
    requires forall a, c :: 0 <= a < c < |users| ==> users[a] < users[c]
    requires forall x :: x in users <==> exists i :: IsListedUser(rows, i) && rows[i].id == x
    ensures var lo, hi := if b == 0 then 0 else users[b - 1], if b == |users| then BEYOND_ALL_IDS else users[b];
            && lo < hi
            && (lo == 0 || exists k :: IsUser(rows, k) && rows[k].id == lo)
            && (hi == BEYOND_ALL_IDS || exists k :: IsUser(rows, k) && rows[k].id == hi)
            && forall k :: IsUser(rows, k) ==> rows[k].id <= lo || hi <= rows[k].id
  {
    if b > 0 {
      assert users[b - 1] in users;
    }
    if b < |users| {
      assert users[b] in users;
    }
    forall k | IsUser(rows, k)
      ensures rows[k].id <= (if b == 0 then 0 else users[b - 1])
              || (if b == |users| then BEYOND_ALL_IDS else users[b]) <= rows[k].id
    {
      assert IsListedUser(rows, k) && rows[k].id in users;
      var a :| 0 <= a < |users| && users[a] == rows[k].id;
    }
  }

  // ---------------------------------------------------------------- the two agree

  // On the rows of a conversation the list marks exactly what the check accepts, if and only if every marked row has
  // text and a question before it.
  lemma AgreeIff(rows: seq<Row>)
    ensures (forall i :: IsMarked(rows, i) <==> IsAccepted(rows, i))
            <==> forall i :: IsMarked(rows, i) ==> HasText(rows[i].message) && HasUserBefore(rows, i)
  {
    assert forall i :: IsAccepted(rows, i) ==> IsMarked(rows, i);
  }

  // What every ledger the store writes looks like: user rows have content, and an assistant row that made no calls has
  // text and a question before it.
  ghost predicate Regular(rows: seq<Row>) {
    && UsersListed(rows)
    && forall i :: IsCandidate(rows, i) ==> HasText(rows[i].message) && HasUserBefore(rows, i)
  }

  lemma RegularAgrees(rows: seq<Row>)
    requires Regular(rows)
    ensures forall i :: IsMarked(rows, i) <==> IsAccepted(rows, i)
  {
    AgreeIff(rows);
  }

  datatype Event =
    | AppendUserRow(cid: int, content: string)
    | Commit(cid: int, messages: seq<StoredMessage>, userRow: Option<int>)

  // A turn is committed with the id of a user row stored for it, or brings its own.
  ghost predicate Enabled(db: Db, e: Event) {
    e.Commit? && e.userRow.Some? ==>
      exists i :: 0 <= i < |db.rows| && db.rows[i].conversation == e.cid && db.rows[i].id == e.userRow.value
                  && db.rows[i].message.role == User
  }

  ghost function Next(db: Db, e: Event, maxChars: nat): Db {
    if !Enabled(db, e) then db
    else match e
      case AppendUserRow(cid, content) => AppendUser(db, cid, content, maxChars)
      case Commit(cid, messages, userRow) => CommitTurn(db, cid, messages, userRow)
  }

  ghost function Run(db: Db, events: seq<Event>, maxChars: nat): Db {
    if events == [] then db
    else Next(Run(db, events[..|events| - 1], maxChars), events[|events| - 1], maxChars)
  }

  ghost predicate AllRegular(rows: seq<Row>) {
    forall cid :: Regular(ConversationRows(rows, cid))
  }

  lemma {:induction false} ConversationRowsConcat(a: seq<Row>, b: seq<Row>, cid: int)
    ensures ConversationRows(a + b, cid) == ConversationRows(a, cid) + ConversationRows(b, cid)
  {
    if b == [] {
      assert a + b == a;
    } else {
      ConversationRowsConcat(a, b[..|b| - 1], cid);
      assert (a + b)[..|a + b| - 1] == a + b[..|b| - 1];
    }
  }

  lemma {:induction false} ConversationRowsUniform(rows: seq<Row>, c: int, cid: int)
    requires forall i :: 0 <= i < |rows| ==> rows[i].conversation == c
    ensures ConversationRows(rows, cid) == if c == cid then rows else []
  {
    if rows != [] {
      ConversationRowsUniform(rows[..|rows| - 1], c, cid);
    }
  }

  lemma {:induction false} ConversationRowsHas(rows: seq<Row>, cid: int, r: Row)
    requires r in rows && r.conversation == cid
    ensures r in ConversationRows(rows, cid)
  {
    var n := |rows| - 1;
    if r != rows[n] {
      assert r in rows[..n] by {
        var i :| 0 <= i < |rows| && rows[i] == r;
        assert rows[..n][i] == r;
      }
      ConversationRowsHas(rows[..n], cid, r);
    }
  }

  ghost predicate HasUser(rows: seq<Row>) {
    exists k :: IsUser(rows, k)
  }

  // New rows keep a conversation regular if they are regular behind it.
  lemma RegularMore(rows: seq<Row>, more: seq<Row>)
    requires Regular(rows)
    requires forall i :: IsUser(more, i) ==> more[i].message.content.Some?
    requires forall i :: IsCandidate(more, i) ==> HasText(more[i].message) && (HasUserBefore(more, i) || HasUser(rows))
    ensures Regular(rows + more)
  {
    var all := rows + more;
    forall i | IsUser(all, i) ensures all[i].message.content.Some? {
      if i < |rows| {
        assert IsUser(rows, i);
      } else {
        assert IsUser(more, i - |rows|);
      }
    }
    forall i | IsCandidate(all, i) ensures HasText(all[i].message) && HasUserBefore(all, i) {
      if i < |rows| {
        assert IsCandidate(rows, i);
        var k :| k < i && IsUser(rows, k);
        assert IsUser(all, k);
      } else {
        assert IsCandidate(more, i - |rows|);
        if HasUserBefore(more, i - |rows|) {
          var k :| k < i - |rows| && IsUser(more, k);
          assert IsUser(all, |rows| + k);
        } else {
          var k :| IsUser(rows, k);
          assert IsUser(all, k);
        }
      }
    }
  }

  lemma TurnRowsRegular(messages: seq<StoredMessage>, own: bool, cid: int, firstId: int)
    requires ValidTurn(messages, DB_MAX_TOOL_CALLS)
    ensures var more := NewRows(if own then messages else messages[1..], cid, firstId);
            && (forall i :: IsUser(more, i) ==> more[i].message.content.Some?)
            && forall i :: IsCandidate(more, i) ==> HasText(more[i].message) && (own ==> HasUserBefore(more, i))
  {
    var d := if own then 0 else 1;
    var more := NewRows(if own then messages else messages[1..], cid, firstId);
    assert own ==> IsUser(more, 0);
    forall i | 0 <= i < |more|
      ensures IsUser(more, i) ==> more[i].message.content.Some?
      ensures IsCandidate(more, i) ==> HasText(more[i].message) && i + d > 0
    {
      assert more[i].message == messages[i + d];
      assert 1 <= i + d < |messages| - 1 ==> IsToolStep(messages[i + d], DB_MAX_TOOL_CALLS);
    }
  }

  lemma InsertKeepsRegular(rows: seq<Row>, more: seq<Row>, c: int)
    requires AllRegular(rows)
    requires forall i :: 0 <= i < |more| ==> more[i].conversation == c
    requires forall i :: IsUser(more, i) ==> more[i].message.content.Some?
    requires forall i :: IsCandidate(more, i) ==>
               HasText(more[i].message) && (HasUserBefore(more, i) || HasUser(ConversationRows(rows, c)))
    ensures AllRegular(rows + more)
  {
    forall cid ensures Regular(ConversationRows(rows + more, cid)) {
      ConversationRowsConcat(rows, more, cid);
      ConversationRowsUniform(more, c, cid);
      if cid == c {
        RegularMore(ConversationRows(rows, cid), more);
      } else {
        assert ConversationRows(rows, cid) + [] == ConversationRows(rows, cid);
      }
    }
  }

  lemma StepKeepsRegular(db: Db, e: Event, maxChars: nat)
    requires AllRegular(db.rows)
    ensures AllRegular(Next(db, e, maxChars).rows)
  {
    if Enabled(db, e) && (e.Commit? ==> ValidTurn(e.messages, DB_MAX_TOOL_CALLS)) {
      var more := if e.AppendUserRow? then NewRows([UserMessage(e.content)], e.cid, db.nextId)
                  else NewRows(if e.userRow.Some? then e.messages[1..] else e.messages, e.cid, db.nextId);
      NewRowsRegular(db, e, more);
      InsertKeepsRegular(db.rows, more, e.cid);
    }
  }

  lemma NewRowsRegular(db: Db, e: Event, more: seq<Row>)
    requires Enabled(db, e) && (e.Commit? ==> ValidTurn(e.messages, DB_MAX_TOOL_CALLS))
    requires more == if e.AppendUserRow? then NewRows([UserMessage(e.content)], e.cid, db.nextId)
                     else NewRows(if e.userRow.Some? then e.messages[1..] else e.messages, e.cid, db.nextId)
    ensures forall i :: 0 <= i < |more| ==> more[i].conversation == e.cid
    ensures forall i :: IsUser(more, i) ==> more[i].message.content.Some?
    ensures forall i :: IsCandidate(more, i) ==>
              HasText(more[i].message) && (HasUserBefore(more, i) || HasUser(ConversationRows(db.rows, e.cid)))
  {
    if e.Commit? {
      TurnRowsRegular(e.messages, e.userRow.None?, e.cid, db.nextId);
      if e.userRow.Some? {
        var i :| 0 <= i < |db.rows| && db.rows[i].conversation == e.cid && db.rows[i].id == e.userRow.value
                 && db.rows[i].message.role == User;
        ConversationRowsHas(db.rows, e.cid, db.rows[i]);
        var k :| 0 <= k < |ConversationRows(db.rows, e.cid)| && ConversationRows(db.rows, e.cid)[k] == db.rows[i];
        assert IsUser(ConversationRows(db.rows, e.cid), k);
      }
    }
  }

  // Main result: on every ledger that appending user rows and committing turns can lead to, in any order, the message
  // list marks a row for feedback exactly when the check accepts it.
  lemma {:induction false} MarksAgree(db: Db, events: seq<Event>, maxChars: nat)
    requires AllRegular(db.rows)
    ensures AllRegular(Run(db, events, maxChars).rows)
    ensures forall cid, i :: var rows := ConversationRows(Run(db, events, maxChars).rows, cid);
                             IsMarked(rows, i) <==> IsAccepted(rows, i)
  {
    if events != [] {
      MarksAgree(db, events[..|events| - 1], maxChars);
      StepKeepsRegular(Run(db, events[..|events| - 1], maxChars), events[|events| - 1], maxChars);
    }
    forall cid ensures forall i :: IsMarked(ConversationRows(Run(db, events, maxChars).rows, cid), i)
                                   <==> IsAccepted(ConversationRows(Run(db, events, maxChars).rows, cid), i)
    {
      RegularAgrees(ConversationRows(Run(db, events, maxChars).rows, cid));
    }
  }

  // A blank answer, or one without a question, breaks the agreement.
  lemma BlankAnswerDisagrees(u: Row, a: Row)
    requires u.message.role == User && a.message == StoredMessage(Assistant, Some(""), None)
    ensures IsMarked([u, a], 1) && !IsAccepted([u, a], 1) && IsMarked([a], 0) && !IsAccepted([a], 0)
  {
  }
}
