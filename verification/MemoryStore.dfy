/** The in-memory session store (app/sessions.py): committing with whole-turn trimming, and its rule for turn
    boundaries compared with the database's. Rows and ids are two sequences of one session; trimming
    cuts both at the same place until the history fits or no whole turn can go, and only then the new rows get ids. Turn
    boundaries are found here by counting positions, there by looking at the role of the next row. */
module MemoryStore {
  import opened Basics
  import opened Messages
  import Ledger

  // ---------------------------------------------------------------- trimming

  // A user row with an answer behind it.
  predicate IsCompleteStart(ms: seq<StoredMessage>, i: int) {
    0 <= i < |ms| - 1 && ms[i].role == User && ms[i + 1].role != User
  }

  function CompleteStarts(ms: seq<StoredMessage>, from: nat): seq<nat>
    requires from <= |ms|
    decreases |ms| - from
  {
    if from == |ms| then []
    else (if IsCompleteStart(ms, from) then [from] else []) + CompleteStarts(ms, from + 1)
  }

  lemma {:induction false} CompleteStartsAre(ms: seq<StoredMessage>, from: nat)
    requires from <= |ms|
    ensures forall i :: i in CompleteStarts(ms, from) <==> from <= i && IsCompleteStart(ms, i)
    ensures forall j, k :: 0 <= j < k < |CompleteStarts(ms, from)| ==>
            CompleteStarts(ms, from)[j] < CompleteStarts(ms, from)[k]
    decreases |ms| - from
  {
    if from < |ms| {
      CompleteStartsAre(ms, from + 1);
      var rest := CompleteStarts(ms, from + 1);
      assert forall k :: 0 <= k < |rest| ==> rest[k] in rest;
    }
  }

  // Where the second complete turn begins.
  function TrimCut(ms: seq<StoredMessage>): Option<nat> {
    var complete := CompleteStarts(ms, 0);
    if |complete| >= 2 then Some(complete[1]) else None
  }

  // A place to cut: a complete turn begins there, and another one before it.
  ghost predicate IsCut(ms: seq<StoredMessage>, s: int) {
    IsCompleteStart(ms, s) && exists i :: i < s && IsCompleteStart(ms, i)
  }

  // TrimCut is the first such place.
  lemma TrimCutIsFirst(ms: seq<StoredMessage>)
    ensures TrimCut(ms).Some? ==> 0 < TrimCut(ms).value && IsCut(ms, TrimCut(ms).value)
    ensures forall s :: IsCut(ms, s) ==> TrimCut(ms).Some? && TrimCut(ms).value <= s
  {
    var complete := CompleteStarts(ms, 0);
    CompleteStartsAre(ms, 0);
    if |complete| >= 2 {
      assert complete[0] in complete && complete[1] in complete;
    }
    forall s | IsCut(ms, s) ensures TrimCut(ms).Some? && TrimCut(ms).value <= s {
      var i :| i < s && IsCompleteStart(ms, i);
      assert s in complete && i in complete;
      var j :| 0 <= j < |complete| && complete[j] == i;
      var k :| 0 <= k < |complete| && complete[k] == s;
      assert j < k;
    }
  }

  lemma StartsShift(ms: seq<StoredMessage>, c: nat, i: int)
    requires c <= |ms| && 0 <= i
    ensures IsCompleteStart(ms[c..], i) <==> IsCompleteStart(ms, c + i)
  {
  }

  // The rows left when a turn has been trimmed to the limit: the earliest cut that fits, or the last one there is.
  ghost predicate IsTrim(all: seq<StoredMessage>, cut: nat, limit: nat) {
    && cut <= |all| && (cut == 0 || (IsCut(all, cut) && |all| > limit))
    && (forall s :: IsCut(all, s) && s < cut ==> |all| - s > limit)
    && (|all| - cut > limit ==> forall s :: IsCut(all, s) ==> s <= cut)
  }

  // The loop of commit_turn in the middle.
  ghost predicate Trimming(all: seq<StoredMessage>, cut: nat, limit: nat) {
    && cut <= |all| && (cut == 0 || (IsCut(all, cut) && |all| > limit))
    && (forall s :: IsCut(all, s) && s < cut ==> |all| - s > limit)
  }

  lemma TrimStep(all: seq<StoredMessage>, cut: nat, limit: nat, d: nat)
    requires Trimming(all, cut, limit) && |all| - cut > limit && TrimCut(all[cut..]) == Some(d)
    ensures 0 < d && Trimming(all, cut + d, limit)
  {
    TrimCutIsFirst(all[cut..]);
    StartsShift(all, cut, d);
    var i :| i < d && IsCompleteStart(all[cut..], i);
    StartsShift(all, cut, i);
    forall s | IsCut(all, s) && s < cut + d ensures |all| - s > limit {
      if s > cut {
        FirstCutBehind(all, cut, d, s);
      }
    }
  }

  // A later place to cut is one in the rows behind an earlier cut, too.
  lemma CutBehind(all: seq<StoredMessage>, cut: nat, s: nat)
    requires cut <= |all| && (cut == 0 || IsCut(all, cut)) && IsCut(all, s) && cut < s
    ensures IsCut(all[cut..], s - cut)
  {
    var i :| i < s && IsCompleteStart(all, i);
    StartsShift(all, cut, s - cut);
    StartsShift(all, cut, if i >= cut then i - cut else 0);
  }

  // Between a cut and the next one no turn is complete.
  lemma FirstCutBehind(all: seq<StoredMessage>, cut: nat, d: nat, s: nat)
    requires cut <= |all| && (cut == 0 || IsCut(all, cut)) && TrimCut(all[cut..]) == Some(d)
    requires IsCut(all, s) && cut < s
    ensures cut + d <= s
  {
    CutBehind(all, cut, s);
    TrimCutIsFirst(all[cut..]);
  }

  lemma TrimStops(all: seq<StoredMessage>, cut: nat, limit: nat)
    requires Trimming(all, cut, limit) && (|all| - cut <= limit || TrimCut(all[cut..]).None?)
    ensures IsTrim(all, cut, limit)
  {
    if |all| - cut > limit {
      TrimCutIsFirst(all[cut..]);
      forall s | IsCut(all, s) ensures s <= cut {
        if s > cut {
          CutBehind(all, cut, s);
        }
      }
    }
  }

  // The newest complete turn survives, in full.
  lemma NewestTurnSurvives(all: seq<StoredMessage>, cut: nat, limit: nat, i: nat)
    requires IsTrim(all, cut, limit) && IsCompleteStart(all, i)
    requires forall k :: IsCompleteStart(all, k) ==> k <= i
    ensures cut <= i
  {
  }

  // What trimming ends with: the limit is met, or fewer than two complete turns are left.
  lemma TrimEnds(all: seq<StoredMessage>, cut: nat, limit: nat, i: nat, k: nat)
    requires IsTrim(all, cut, limit) && |all[cut..]| > limit
    requires IsCompleteStart(all[cut..], i) && IsCompleteStart(all[cut..], k)
    ensures i == k
  {
    StartsShift(all, cut, i);
    StartsShift(all, cut, k);
    assert i < k ==> IsCut(all, cut + k);
    assert k < i ==> IsCut(all, cut + i);
  }

  // ---------------------------------------------------------------- boundaries

  // Turns from one user row to the next; what comes before the first user row belongs to none.
  function Turns(ms: seq<StoredMessage>): seq<seq<StoredMessage>> {
    if ms == [] then []
    else
      var turns, last := Turns(ms[..|ms| - 1]), ms[|ms| - 1];
      if last.role == User then turns + [[last]]
      else if turns != [] then turns[..|turns| - 1] + [turns[|turns| - 1] + [last]]
      else []
  }

  function WithAnswer(turns: seq<seq<StoredMessage>>): seq<seq<StoredMessage>> {
    if turns == [] then []
    else WithAnswer(turns[..|turns| - 1]) + if |turns[|turns| - 1]| >= 2 then [turns[|turns| - 1]] else []
  }

  function Total(turns: seq<seq<StoredMessage>>): nat {
    if turns == [] then 0 else Total(turns[..|turns| - 1]) + |turns[|turns| - 1]|
  }

  // Positions counted over the complete turns alone, as _turn_boundary_ids does.
  function Ends(turns: seq<seq<StoredMessage>>): set<int> {
    if turns == [] then {} else Ends(turns[..|turns| - 1]) + {Total(turns) - 1}
  }

  function MemoryBounds(ms: seq<StoredMessage>): set<int> {
    Ends(WithAnswer(Turns(ms)))
  }

  // The database's rule: no row follows, or a user row does.
  predicate IsDbBound(ms: seq<StoredMessage>, p: int) {
    0 <= p < |ms| && (p + 1 < |ms| ==> ms[p + 1].role == User)
  }

  function DbBounds(ms: seq<StoredMessage>): set<int> {
    set p | 0 <= p < |ms| && IsDbBound(ms, p)
  }

  lemma {:induction false} TurnsNonEmpty(ms: seq<StoredMessage>)
    ensures forall k :: 0 <= k < |Turns(ms)| ==> |Turns(ms)[k]| >= 1
  {
    if ms != [] {
      TurnsNonEmpty(ms[..|ms| - 1]);
    }
  }

  lemma {:induction false} TurnsTotal(ms: seq<StoredMessage>)
    ensures Total(Turns(ms)) <= |ms|
    ensures (ms == [] || ms[0].role == User) <==> Total(Turns(ms)) == |ms|
    ensures ms != [] && ms[0].role == User ==> Turns(ms) != []
  {
    if ms != [] {
      var turns, last := Turns(ms[..|ms| - 1]), ms[|ms| - 1];
      TurnsTotal(ms[..|ms| - 1]);
      if last.role == User {
        TotalMore(turns, [last]);
      } else if turns != [] {
        TotalGrows(turns, last);
      }
    }
  }

  // The turns hold all rows exactly when the first one is a user row.
  lemma TurnsCover(ms: seq<StoredMessage>)
    ensures Total(Turns(ms)) <= |ms|
    ensures (ms == [] || ms[0].role == User) <==> Total(Turns(ms)) == |ms|
    ensures ms != [] && ms[0].role == User ==> Turns(ms) != []
    ensures forall k :: 0 <= k < |Turns(ms)| ==> |Turns(ms)[k]| >= 1
  {
    TurnsNonEmpty(ms);
    TurnsTotal(ms);
  }

  lemma TotalMore(turns: seq<seq<StoredMessage>>, t: seq<StoredMessage>)
    ensures Total(turns + [t]) == Total(turns) + |t|
    ensures Ends(turns + [t]) == Ends(turns) + {Total(turns) + |t| - 1}
    ensures WithAnswer(turns + [t]) == WithAnswer(turns) + if |t| >= 2 then [t] else []
  {
    assert (turns + [t])[..|turns|] == turns;
  }

  lemma TotalGrows(turns: seq<seq<StoredMessage>>, last: StoredMessage)
    requires turns != []
    ensures Total(turns[..|turns| - 1] + [turns[|turns| - 1] + [last]]) == Total(turns) + 1
  {
    TotalMore(turns[..|turns| - 1], turns[|turns| - 1] + [last]);
  }

  // Counted over all turns, the positions are the database's.
  lemma {:induction false} EndsOfTurns(ms: seq<StoredMessage>)
    requires ms == [] || ms[0].role == User
    ensures Ends(Turns(ms)) == DbBounds(ms)
  {
    if ms != [] {
      var n := |ms| - 1;
      var init, turns := ms[..n], Turns(ms[..n]);
      EndsOfTurns(init);
      TurnsCover(init);
      if ms[n].role == User {
        TotalMore(turns, [ms[n]]);
        DbBoundsUser(ms);
      } else {
        TotalMore(turns[..|turns| - 1], turns[|turns| - 1] + [ms[n]]);
        TotalMore(turns[..|turns| - 1], turns[|turns| - 1]);
        assert turns == turns[..|turns| - 1] + [turns[|turns| - 1]];
        EndsBelow(turns[..|turns| - 1]);
        DbBoundsOther(ms);
        TurnsCover(ms);
      }
    }
  }

  lemma DbBoundsUser(ms: seq<StoredMessage>)
    requires ms != [] && ms[|ms| - 1].role == User
    ensures DbBounds(ms) == DbBounds(ms[..|ms| - 1]) + {|ms| - 1}
  {
    forall p ensures p in DbBounds(ms) <==> p in DbBounds(ms[..|ms| - 1]) + {|ms| - 1} {
    }
  }

  lemma DbBoundsOther(ms: seq<StoredMessage>)
    requires |ms| > 1 && ms[|ms| - 1].role != User
    ensures DbBounds(ms) == DbBounds(ms[..|ms| - 1]) - {|ms| - 2} + {|ms| - 1}
  {
    forall p ensures p in DbBounds(ms) <==> p in DbBounds(ms[..|ms| - 1]) - {|ms| - 2} + {|ms| - 1} {
    }
  }

  lemma {:induction false} EndsBelow(turns: seq<seq<StoredMessage>>)
    ensures forall p :: p in Ends(turns) ==> p < Total(turns)
  {
    if turns != [] {
      EndsBelow(turns[..|turns| - 1]);
    }
  }

  ghost predicate AllAnswered(turns: seq<seq<StoredMessage>>) {
    forall k :: 0 <= k < |turns| ==> |turns[k]| >= 2
  }

  lemma {:induction false} WithAnswerTotal(turns: seq<seq<StoredMessage>>)
    requires forall k :: 0 <= k < |turns| ==> |turns[k]| >= 1
    ensures Total(WithAnswer(turns)) <= Total(turns)
    ensures Total(WithAnswer(turns)) == Total(turns) <==> AllAnswered(turns)
    ensures AllAnswered(turns) ==> WithAnswer(turns) == turns
  {
    if turns != [] {
      var n := |turns| - 1;
      WithAnswerTotal(turns[..n]);
      assert turns == turns[..n] + [turns[n]];
      assert AllAnswered(turns) <==> AllAnswered(turns[..n]) && |turns[n]| >= 2;
      if |turns[n]| >= 2 {
        TotalMore(WithAnswer(turns[..n]), turns[n]);
      } else {
        assert WithAnswer(turns[..n]) + [] == WithAnswer(turns[..n]);
      }
    }
  }

  // A user row without an answer is a turn of its own.
  ghost predicate UsersAnswered(ms: seq<StoredMessage>) {
    forall i :: 0 <= i < |ms| && ms[i].role == User ==> IsCompleteStart(ms, i)
  }

  // All but the last user row are answered.
  ghost predicate EarlierAnswered(ms: seq<StoredMessage>) {
    forall i :: 0 <= i < |ms| - 1 && ms[i].role == User ==> IsCompleteStart(ms, i)
  }

  lemma EarlierAnsweredInit(ms: seq<StoredMessage>)
    requires ms != []
    ensures EarlierAnswered(ms) <==>
            if ms[|ms| - 1].role == User then UsersAnswered(ms[..|ms| - 1]) else EarlierAnswered(ms[..|ms| - 1])
    ensures ms[|ms| - 1].role == User ==> !UsersAnswered(ms)
    ensures ms[|ms| - 1].role != User ==> (UsersAnswered(ms) <==> EarlierAnswered(ms))
  {
    var n := |ms| - 1;
    var init := ms[..n];
    assert forall i :: 0 <= i < n - 1 ==> (IsCompleteStart(ms, i) <==> IsCompleteStart(init, i));
    assert !IsCompleteStart(ms, n);
    assert n > 0 ==> !IsCompleteStart(init, n - 1);
    if n > 0 && init[n - 1].role == User {
      assert IsCompleteStart(ms, n - 1) <==> ms[n].role != User;
    }
  }

  lemma {:induction false} TurnsAnswered(ms: seq<StoredMessage>)
    requires ms == [] || ms[0].role == User
    ensures (ms != [] ==> Turns(ms) != []) && (AllAnswered(Turns(ms)) <==> UsersAnswered(ms))
    ensures ms != [] ==> (AllAnswered(Turns(ms)[..|Turns(ms)| - 1]) <==> EarlierAnswered(ms))
    ensures ms != [] ==> (|Turns(ms)[|Turns(ms)| - 1]| >= 2 <==> ms[|ms| - 1].role != User)
  {
    if ms != [] {
      var n := |ms| - 1;
      var turns := Turns(ms[..n]);
      TurnsAnswered(ms[..n]);
      TurnsCover(ms[..n]);
      EarlierAnsweredInit(ms);
      if ms[n].role == User {
        assert (turns + [[ms[n]]])[..|turns|] == turns;
      } else {
        var k := |turns| - 1;
        assert (turns[..k] + [turns[k] + [ms[n]]])[..k] == turns[..k];
      }
      LastTurn(Turns(ms));
    }
  }

  lemma LastTurn(turns: seq<seq<StoredMessage>>)
    requires turns != []
    ensures AllAnswered(turns) <==> AllAnswered(turns[..|turns| - 1]) && |turns[|turns| - 1]| >= 2
  {
  }

  // No row in front of the first user row, and an answer behind every user row.
  ghost predicate NoLooseRows(ms: seq<StoredMessage>) {
    (ms != [] ==> ms[0].role == User) && UsersAnswered(ms)
  }

  // The two rules for a turn boundary agree exactly on histories without loose rows.
  lemma BoundsAgreeIff(ms: seq<StoredMessage>)
    ensures MemoryBounds(ms) == DbBounds(ms) <==> NoLooseRows(ms)
  {
    var turns := Turns(ms);
    TurnsCover(ms);
    WithAnswerTotal(turns);
    if NoLooseRows(ms) {
      TurnsAnswered(ms);
      EndsOfTurns(ms);
    } else {
      if ms[0].role == User {
        TurnsAnswered(ms);
      }
      assert Total(WithAnswer(turns)) < |ms|;
      EndsBelow(WithAnswer(turns));
      assert |ms| - 1 in DbBounds(ms);
      assert |ms| - 1 !in MemoryBounds(ms);
    }
  }

  // An unanswered question is enough: the positions behind it are counted one short.
  lemma LooseRowShiftsBounds(u: StoredMessage, a: StoredMessage)
    requires u.role == User && a.role == Assistant
    ensures MemoryBounds([u, u, a]) == {1} && DbBounds([u, u, a]) == {0, 2}
  {
    LooseTurns(u, a);
    assert [[u], [u, a]][..1] == [[u]] && [[u]][..0] == [];
    assert WithAnswer([[u]]) == [];
    TotalMore([], [u, a]);
    assert [] + [[u, a]] == [[u, a]];
    var ms := [u, u, a];
    assert IsDbBound(ms, 0) && !IsDbBound(ms, 1) && IsDbBound(ms, 2);
  }

  lemma LooseTurns(u: StoredMessage, a: StoredMessage)
    requires u.role == User && a.role == Assistant
    ensures Turns([u, u, a]) == [[u], [u, a]]
  {
    assert [u, u, a][..2] == [u, u] && [u, u][..1] == [u] && [u][..0] == [];
    assert Turns([]) == [];
    assert Turns([u]) == [] + [[u]];
    assert Turns([u, u]) == [[u]] + [[u]];
    assert [[u], [u]][..1] == [[u]] && [u] + [a] == [u, a];
  }

  // DbBounds is the database's rule on the rows these messages are stored as.
  lemma DbBoundsAreLedgers(ms: seq<StoredMessage>, ids: seq<int>, cid: int, p: nat, nextId: int)
    requires |ids| == |ms| && p < |ms| && Ledger.RowsInOrder(AsRows(ms, ids, cid), nextId)
    ensures Ledger.IsBoundary(AsRows(ms, ids, cid), cid, ids[p]) <==> p in DbBounds(ms)
  {
    var rows := AsRows(ms, ids, cid);
    assert rows[p].id == ids[p] && rows[p].conversation == cid;
    if p + 1 < |ms| {
      assert rows[p].id < rows[p + 1].id;
      forall k | 0 <= k < p + 1 ensures rows[k].id <= ids[p] {
        assert k < p ==> rows[k].id < rows[p].id;
      }
      Ledger.NextRoleSpec(rows, nextId, cid, ids[p], p + 1);
    } else {
      forall k | 0 <= k < |rows| ensures rows[k].id <= ids[p] {
        assert k < p ==> rows[k].id < rows[p].id;
      }
      Ledger.NextRoleNone(rows, cid, ids[p]);
    }
  }

  function AsRows(ms: seq<StoredMessage>, ids: seq<int>, cid: int): (rows: seq<Ledger.Row>)
    requires |ids| == |ms|
    ensures |rows| == |ms| && forall i :: 0 <= i < |rows| ==> rows[i] == Ledger.Row(ids[i], cid, ms[i])
  {
    seq(|ms|, i requires 0 <= i < |ms| => Ledger.Row(ids[i], cid, ms[i]))
  }

  // ---------------------------------------------------------------- the store

  ghost predicate Increasing(ids: seq<int>, last: int) {
    && (forall i :: 0 <= i < |ids| ==> 0 < ids[i] <= last)
    && (forall i, j :: 0 <= i < j < |ids| ==> ids[i] < ids[j])
  }

  function Fresh(first: int, n: nat): (ids: seq<int>)
    ensures |ids| == n && forall i :: 0 <= i < n ==> ids[i] == first + i
  {
    seq(n, i requires 0 <= i < n => first + i)
  }

  lemma JoinedIds(kept: seq<int>, last: int, n: nat)
    requires Increasing(kept, last) && 0 <= last
    ensures Increasing(kept + Fresh(last + 1, n), last + n)
  {
  }

  lemma StillIncreasing(ids: seq<int>, last: int, n: nat, cut: nat)
    requires Increasing(ids, last) && cut <= |ids|
    ensures Increasing(ids, last + n) && Increasing(ids[cut..], last)
  {
  }

  predicate Storable(messages: seq<StoredMessage>, maxCalls: nat, maxChars: nat) {
    && ValidTurn(messages, maxCalls)
    && forall i :: 0 <= i < |messages| ==>
         (messages[i].content.Some? && messages[i].role != Tool ==> |messages[i].content.value| <= maxChars)
  }

  ghost predicate InStep(sessions: map<string, seq<StoredMessage>>, ids: map<string, seq<int>>, last: int) {
    && 0 <= last && ids.Keys == sessions.Keys
    && forall sid :: sid in sessions ==> |ids[sid]| == |sessions[sid]| && Increasing(ids[sid], last)
  }

  lemma JoinKeepsInStep(sessions: map<string, seq<StoredMessage>>, ids: map<string, seq<int>>, last: int,
                        sid: string, rows: seq<StoredMessage>, cut: nat)
    requires InStep(sessions, ids, last) && sid in sessions && cut <= |ids[sid]|
    ensures InStep(sessions[sid := (sessions[sid] + rows)[cut..]],
                   ids[sid := (ids[sid] + Fresh(last + 1, |rows|))[cut..]], last + |rows|)
  {
    forall s | s in ids ensures Increasing(ids[s], last + |rows|) {
      StillIncreasing(ids[s], last, |rows|, 0);
    }
    StillIncreasing(ids[sid], last, |rows|, cut);
    JoinedIds(ids[sid][cut..], last, |rows|);
    assert (ids[sid] + Fresh(last + 1, |rows|))[cut..] == ids[sid][cut..] + Fresh(last + 1, |rows|);
  }

  // The session has the new rows under the next ids, less the same number of rows and ids at the front.
  ghost predicate Joined(before: map<string, seq<StoredMessage>>, after: map<string, seq<StoredMessage>>,
                         idsBefore: map<string, seq<int>>, idsAfter: map<string, seq<int>>,
                         sid: string, rows: seq<StoredMessage>, last: int, cut: nat, limit: nat) {
    && sid in before && sid in idsBefore
    && var all, allIds := before[sid] + rows, idsBefore[sid] + Fresh(last + 1, |rows|);
       && IsTrim(all, cut, limit) && cut <= |allIds|
       && after == before[sid := all[cut..]] && idsAfter == idsBefore[sid := allIds[cut..]]
  }

  class InMemorySessionStore {
    const maxMessages: nat
    const maxChars: nat
    const maxToolCalls: nat
    var sessions: map<string, seq<StoredMessage>>
    var ids: map<string, seq<int>>
    var layer1From: map<string, int>
    var msgSeq: int

    constructor (maxMessages: nat, maxChars: nat, maxToolCalls: nat)
      ensures this.maxMessages == maxMessages && this.maxChars == maxChars && this.maxToolCalls == maxToolCalls
      ensures Valid() && sessions == map[] && msgSeq == 0
    {
      this.maxMessages, this.maxChars, this.maxToolCalls := maxMessages, maxChars, maxToolCalls;
      sessions, ids, layer1From, msgSeq := map[], map[], map[], 0;
    }

    // Every row has its id, and ids only grow.
    ghost predicate Valid()
      reads this
    {
      InStep(sessions, ids, msgSeq)
    }

    // The larger of the configured limit and the room one turn needs.
    function Limit(): (limit: nat)
      ensures maxMessages <= limit && maxToolCalls + 3 <= limit
      ensures limit == maxMessages || limit == maxToolCalls + 3
    {
      if maxMessages > maxToolCalls + 3 then maxMessages else maxToolCalls + 3
    }

    method Create(sid: string)
      requires Valid() && sid !in sessions
      modifies this
      ensures Valid() && sessions == old(sessions)[sid := []] && ids == old(ids)[sid := []] && msgSeq == old(msgSeq)
    {
      sessions, ids := sessions[sid := []], ids[sid := []];
    }

    // None is the error for an over-long message.
    method AppendUserMessage(sid: string, content: string) returns (id: Option<int>)
      requires Valid() && sid in sessions
      modifies this`sessions, this`ids, this`msgSeq
      ensures Valid() && (id.None? <==> |content| > maxChars)
      ensures id.None? ==> sessions == old(sessions) && ids == old(ids) && msgSeq == old(msgSeq)
      ensures id.Some? ==>
                && id.value == msgSeq == old(msgSeq) + 1
                && sessions == old(sessions)[sid := old(sessions[sid]) + [Ledger.UserMessage(content)]]
                && ids == old(ids)[sid := old(ids[sid]) + [msgSeq]]
    {
      if |content| > maxChars {
        return None;
      }
      sessions := sessions[sid := sessions[sid] + [Ledger.UserMessage(content)]];
      msgSeq := msgSeq + 1;
      ids := ids[sid := ids[sid] + [msgSeq]];
      return Some(msgSeq);
    }

    // The trimming loop: rows at the front go in whole turns until the rest is short enough.
    method Trim(all: seq<StoredMessage>, oldIds: seq<int>, limit: nat)
      returns (msgs: seq<StoredMessage>, kept: seq<int>, ghost cut: nat)
      requires |oldIds| <= |all| && forall i :: IsCompleteStart(all, i) ==> i <= |oldIds|
      ensures IsTrim(all, cut, limit) && cut <= |oldIds|
      ensures msgs == all[cut..] && kept == oldIds[cut..]
    {
      msgs, kept, cut := all, oldIds, 0;
      while |msgs| > limit
        invariant Trimming(all, cut, limit) && cut <= |oldIds| && msgs == all[cut..] && kept == oldIds[cut..]
        decreases |msgs|
      {
        var d := TrimCut(msgs);
        if d.None? {
          break;
        }
        TrimStep(all, cut, limit, d.value);
        msgs := msgs[d.value..];
        kept := kept[d.value..];
        cut := cut + d.value;
      }
      TrimStops(all, cut, limit);
    }

    // The turn's rows join the session, which is then trimmed from the front; rows and ids stay in step.
    method CommitTurn(sid: string, messages: seq<StoredMessage>, userRow: Option<int>)
      returns (rowIds: Option<seq<int>>, ghost cut: nat)
      requires Valid() && sid in sessions
      modifies this`sessions, this`ids, this`msgSeq
      ensures Valid() && (rowIds.Some? <==> Storable(messages, maxToolCalls, maxChars))
      ensures rowIds.None? ==> sessions == old(sessions) && ids == old(ids) && msgSeq == old(msgSeq)
      ensures rowIds.Some? ==>
                var rows := if userRow.Some? then messages[1..] else messages;
                && Joined(old(sessions), sessions, old(ids), ids, sid, rows, old(msgSeq), cut, Limit())
                && msgSeq == old(msgSeq) + |rows|
                && rowIds.value == (if userRow.Some? then [userRow.value] else []) + Fresh(old(msgSeq) + 1, |rows|)
    {
      cut := 0;
      var ok := ValidateTurn(messages, maxToolCalls);
      if !ok || exists i :: 0 <= i < |messages| && messages[i].content.Some? && messages[i].role != Tool
                            && |messages[i].content.value| > maxChars {
        return None, 0;
      }
      var rows := if userRow.Some? then messages[1..] else messages;
      StartsBeforeNewRows(sessions[sid], messages, rows, maxToolCalls);
      var newIds;
      newIds, cut := Join(sid, rows);
      return Some((if userRow.Some? then [userRow.value] else []) + newIds), cut;
    }

    method Join(sid: string, rows: seq<StoredMessage>) returns (newIds: seq<int>, ghost cut: nat)
      requires Valid() && sid in sessions
      requires forall i :: IsCompleteStart(sessions[sid] + rows, i) ==> i <= |sessions[sid]|
      modifies this`sessions, this`ids, this`msgSeq
      ensures Valid() && newIds == Fresh(old(msgSeq) + 1, |rows|) && msgSeq == old(msgSeq) + |rows|
      ensures Joined(old(sessions), sessions, old(ids), ids, sid, rows, old(msgSeq), cut, Limit())
    {
      var msgs, kept;
      var all, oldIds := sessions[sid] + rows, ids[sid];
      msgs, kept, cut := Trim(all, oldIds, Limit());
      newIds := Fresh(msgSeq + 1, |rows|);
      JoinKeepsInStep(sessions, ids, msgSeq, sid, rows, cut);
      assert kept + newIds == (oldIds + newIds)[cut..];
      Put(sid, msgs, kept + newIds, |rows|);
    }

    method Put(sid: string, msgs: seq<StoredMessage>, allIds: seq<int>, n: nat)
      requires InStep(sessions[sid := msgs], ids[sid := allIds], msgSeq + n)
      modifies this`sessions, this`ids, this`msgSeq
      ensures Valid() && sessions == old(sessions)[sid := msgs] && ids == old(ids)[sid := allIds]
              && msgSeq == old(msgSeq) + n
    {
      sessions := sessions[sid := msgs];
      ids := ids[sid := allIds];
      msgSeq := msgSeq + n;
    }

    // _turn_boundary_ids: positions are counted over complete turns.
    method TurnBoundaryIds(sid: string) returns (bounds: set<int>)
      requires Valid() && sid in sessions
      ensures bounds == IdsAt(ids[sid], MemoryBounds(sessions[sid]))
    {
      var all := ids[sid];
      var turns := WithAnswer(Turns(sessions[sid]));
      TurnsCover(sessions[sid]);
      WithAnswerTotal(Turns(sessions[sid]));
      AnsweredTurns(Turns(sessions[sid]));
      bounds := {};
      var pos := 0;
      for i := 0 to |turns|
        invariant pos == Total(turns[..i]) && bounds == IdsAt(all, Ends(turns[..i]))
      {
        NextEnd(all, turns, i);
        pos := pos + |turns[i]|;
        bounds := bounds + {all[pos - 1]};
      }
      assert turns[..|turns|] == turns;
    }

    // Accepted: the caller's session, forward, and at a turn boundary by this store's rule.
    method MoveLayer1From(sid: string, owned: bool, newId: int) returns (ok: bool)
      requires Valid() && (owned ==> sid in sessions)
      modifies this`layer1From
      ensures ok <==> owned && (sid in old(layer1From) ==> old(layer1From)[sid] < newId)
                      && newId in IdsAt(ids[sid], MemoryBounds(sessions[sid]))
      ensures layer1From == if ok then old(layer1From)[sid := newId] else old(layer1From)
    {
      if !owned || (sid in layer1From && newId <= layer1From[sid]) || newId !in ids[sid] {
        return false;
      }
      var bounds := TurnBoundaryIds(sid);
      if newId !in bounds {
        return false;
      }
      layer1From := layer1From[sid := newId];
      return true;
    }
  }

  lemma NextEnd(ids: seq<int>, turns: seq<seq<StoredMessage>>, i: nat)
    requires i < |turns| && AllAnswered(turns) && Total(turns) <= |ids|
    ensures var pos := Total(turns[..i]) + |turns[i]|;
            && 0 < pos <= |ids| && Total(turns[..i + 1]) == pos
            && IdsAt(ids, Ends(turns[..i + 1])) == IdsAt(ids, Ends(turns[..i])) + {ids[pos - 1]}
  {
    assert turns[..i + 1] == turns[..i] + [turns[i]];
    TotalMore(turns[..i], turns[i]);
    TotalUpTo(turns, i + 1);
  }

  function IdsAt(ids: seq<int>, ps: set<int>): set<int> {
    set p | p in ps && 0 <= p < |ids| :: ids[p]
  }

  lemma {:induction false} TotalUpTo(turns: seq<seq<StoredMessage>>, n: nat)
    requires n <= |turns|
    ensures Total(turns[..n]) <= Total(turns)
    decreases |turns|
  {
    if n < |turns| {
      TotalUpTo(turns[..|turns| - 1], n);
      assert turns[..|turns| - 1][..n] == turns[..n];
    } else {
      assert turns[..n] == turns;
    }
  }

  lemma {:induction false} AnsweredTurns(turns: seq<seq<StoredMessage>>)
    ensures AllAnswered(WithAnswer(turns))
  {
    if turns != [] {
      AnsweredTurns(turns[..|turns| - 1]);
    }
  }

  // No turn begins inside the new rows, so trimming never reaches past the rows that have their ids.
  lemma StartsBeforeNewRows(stored: seq<StoredMessage>, messages: seq<StoredMessage>, rows: seq<StoredMessage>,
                            maxCalls: nat)
    requires ValidTurn(messages, maxCalls) && (rows == messages || rows == messages[1..])
    ensures forall i :: IsCompleteStart(stored + rows, i) ==> i <= |stored|
  {
    forall i | |stored| < i < |stored + rows| ensures (stored + rows)[i].role != User {
      var k := i - |stored| + |messages| - |rows|;
      assert (stored + rows)[i] == messages[k];
      assert k < |messages| - 1 ==> IsToolStep(messages[k], maxCalls);
    }
  }
}
