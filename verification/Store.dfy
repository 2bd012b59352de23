/** The database-backed session store and the summary runner (app/store_db.py, app/services/summarizer.py). */
module Store {
  // As the objects they are: each method is one transaction, or one stretch between two awaits, and does exactly the
  // step of Ledger or Summaries.
  import opened Basics
  import opened Messages
  import opened Ledger
  import Summaries
  import TokenBudget

  // How many messages of a turn are stored before it is committed.
  function Known(userRow: Option<int>): nat {
    if userRow.Some? then 1 else 0
  }

  // The others, in order.
  function Missing(messages: seq<StoredMessage>, userRow: Option<int>): (missing: seq<StoredMessage>)
    ensures messages != [] ==> missing == messages[Known(userRow)..]
  {
    if userRow.Some? && messages != [] then messages[1..] else messages
  }

  ghost predicate AreIds(ids: seq<int>, n: nat, userRow: Option<int>, firstId: int) {
    && |ids| == n && (userRow.Some? && n > 0 ==> ids[0] == userRow.value)
    && forall k :: Known(userRow) <= k < n ==> ids[k] == firstId + k - Known(userRow)
  }

  class DbSessionStore {
    var conversations: map<int, Conversation>
    var rows: seq<Row>
    var segments: map<int, seq<Segment>>
    var nextId: int
    const maxMessageChars: nat

    constructor (maxMessageChars: nat)
      ensures this.maxMessageChars == maxMessageChars
      ensures View() == Summaries.Start().db
    {
      this.maxMessageChars := maxMessageChars;
      conversations, rows, segments, nextId := map[], [], map[], 1;
    }

    function View(): Db
      reads this
    {
      Db(conversations, rows, segments, nextId)
    }

    method AppendUserMessage(cid: int, content: string) returns (id: Option<int>)
      modifies this
      ensures View() == AppendUser(old(View()), cid, content, maxMessageChars)
      ensures id == if |content| <= maxMessageChars && cid in old(conversations) then Some(old(nextId)) else None
      ensures conversations == old(conversations) && segments == old(segments)
      ensures id.None? ==> rows == old(rows) && nextId == old(nextId)
      ensures id.Some? ==>
                && rows == old(rows) + [Row(old(nextId), cid, StoredMessage(User, Some(content), None))]
                && nextId == old(nextId) + 1
    {
      if |content| > maxMessageChars || cid !in conversations {
        return None;
      }
      id := Some(nextId);
      rows := rows + [Row(nextId, cid, UserMessage(content))];
      nextId := nextId + 1;
      assert rows == old(rows) + NewRows([UserMessage(content)], cid, old(nextId));
    }

    method CommitTurn(cid: int, messages: seq<StoredMessage>, userRow: Option<int>) returns (ids: seq<int>)
      modifies this
      ensures View() == Ledger.CommitTurn(old(View()), cid, messages, userRow)
      ensures ids == [] <==> !ValidTurn(messages, DB_MAX_TOOL_CALLS) || cid !in old(conversations)
      ensures ids == [] ==> View() == old(View())
      ensures ids != [] ==> AreIds(ids, |messages|, userRow, old(nextId))
      ensures ids != [] ==> rows == old(rows) + NewRows(Missing(messages, userRow), cid, old(nextId))
      ensures ids != [] ==> nextId == old(nextId) + |messages| - Known(userRow)
      ensures conversations == old(conversations) && segments == old(segments)
    {
      var ok := ValidateTurn(messages, DB_MAX_TOOL_CALLS);
      if !ok || cid !in conversations {
        return [];
      }
      ids := InsertAll(cid, Missing(messages, userRow));
      if userRow.Some? {
        ids := [userRow.value] + ids;
      }
    }

    // One row after the other, each under the next id.
    method InsertAll(cid: int, missing: seq<StoredMessage>) returns (ids: seq<int>)
      modifies this
      ensures conversations == old(conversations) && segments == old(segments)
      ensures nextId == old(nextId) + |missing| && rows == old(rows) + NewRows(missing, cid, old(nextId))
      ensures |ids| == |missing| && forall k :: 0 <= k < |ids| ==> ids[k] == old(nextId) + k
    {
      ids := [];
      for i := 0 to |missing|
        invariant conversations == old(conversations) && segments == old(segments)
        invariant nextId == old(nextId) + i && rows == old(rows) + NewRows(missing, cid, old(nextId))[..i]
        invariant |ids| == i && forall k :: 0 <= k < |ids| ==> ids[k] == old(nextId) + k
      {
        rows := rows + [Row(nextId, cid, missing[i])];
        ids := ids + [nextId];
        nextId := nextId + 1;
      }
    }

    // The role of the first row of the conversation after an id, by a scan in id order.
    method NextRoleAfter(cid: int, id: int) returns (role: Option<Role>)
      ensures role == NextRole(rows, cid, id)
    {
      var i := 0;
      while i < |rows|
        invariant 0 <= i <= |rows|
        invariant NextRole(rows[i..], cid, id) == NextRole(rows, cid, id)
      {
        if rows[i].conversation == cid && rows[i].id > id {
          return Some(rows[i].message.role);
        }
        assert rows[i..][1..] == rows[i + 1..];
        i := i + 1;
      }
      return None;
    }

    method MoveLayer1From(cid: int, owner: string, newId: int) returns (moved: bool)
      modifies this
      ensures moved <==> MoveAccepted(old(View()), cid, owner, newId)
      ensures View() == MoveLayer1(old(View()), cid, owner, newId)
      ensures moved <==> && cid in old(conversations) && old(conversations)[cid].owner == owner
                         && (old(conversations)[cid].layer1From.None?
                             || old(conversations)[cid].layer1From.value < newId)
                         && HasRow(rows, cid, newId) && NextRole(rows, cid, newId) in {None, Some(User)}
      ensures rows == old(rows) && segments == old(segments) && nextId == old(nextId)
      ensures moved ==> conversations == old(conversations)[cid := old(conversations)[cid].(layer1From := Some(newId))]
      ensures !moved ==> conversations == old(conversations)
    {
      if cid !in conversations || conversations[cid].owner != owner {
        return false;
      }
      var previous := conversations[cid].layer1From;
      if previous.Some? && newId <= previous.value {
        return false;
      }
      if !HasRow(rows, cid, newId) {
        return false;
      }
      var next := NextRoleAfter(cid, newId);
      if next.Some? && next.value != User {
        return false;  // inside a turn
      }
      conversations := conversations[cid := conversations[cid].(layer1From := Some(newId))];
      return true;
    }

    method FetchSpanTexts(cid: int, from: int, upto: int) returns (span: seq<SpanText>)
      ensures span == Span(rows, cid, from, upto)
    {
      span := [];
      for i := 0 to |rows|
        invariant span == Span(rows[..i], cid, from, upto)
      {
        assert rows[..i + 1][..i] == rows[..i];
        if InSpan(rows[i], cid, from, upto) {
          span := span + [SpanText(rows[i].id, rows[i].message.role, TextOf(rows[i].message))];
        }
      }
      assert rows[..|rows|] == rows;
    }

    method AppendSummary(cid: int, from: int, upto: int, content: string, tokens: int) returns (r: AppendResult)
      modifies this
      ensures r == AppendSummaryResult(old(View()), cid, from, upto)
      ensures View() == Ledger.AppendSummary(old(View()), cid, from, upto, content, tokens)
      ensures r.BadSession? <==> cid !in old(conversations)
      ensures r.AnchorMoved? <==> cid in old(conversations) && OrZero(old(conversations)[cid].summaryUpto) != from
      ensures r.Applied? <==> && cid in old(conversations) && OrZero(old(conversations)[cid].summaryUpto) == from
                              && old(conversations)[cid].layer1From.Some?
                              && upto <= old(conversations)[cid].layer1From.value
      ensures rows == old(rows) && nextId == old(nextId)
      ensures !r.Applied? ==> conversations == old(conversations) && segments == old(segments)
      ensures r.Applied? ==>
                var before := if cid in old(segments) then old(segments)[cid] else [];
                && segments == old(segments)[cid := before + [Segment(r.number, from, upto, content)]]
                && r.number == |before| + 1
                && conversations == old(conversations)[cid := conversations[cid]]
                && conversations[cid].owner == old(conversations)[cid].owner
                && conversations[cid].layer1From == old(conversations)[cid].layer1From
                && conversations[cid].summaryUpto == Some(upto)
                && conversations[cid].summary == Some(TokenBudget.Projection(Contents(segments[cid]), tokens))
    {
      if cid !in conversations {
        return BadSession;
      }
      var c := conversations[cid];
      if OrZero(c.summaryUpto) != from {
        return AnchorMoved;
      }
      if c.layer1From.None? || upto > c.layer1From.value {
        return BeyondLayer1;
      }
      var number := |SegmentsOf(View(), cid)| + 1;
      segments := segments[cid := SegmentsOf(View(), cid) + [Segment(number, from, upto, content)]];
      var projection := TokenBudget.BuildSummaryProjection(Contents(segments[cid]), tokens);
      conversations := conversations[cid := c.(summary := Some(projection), summaryUpto := Some(upto))];
      return Applied(number);
    }
  }

  class SummaryRunner {
    const store: DbSessionStore
    const projectionTokens: int
    const summaryMaxChars: nat
    var tasks: seq<Summaries.Task>
    var inflight: map<int, nat>
    ghost var read: map<int, seq<seq<SpanText>>>

    constructor (store: DbSessionStore, projectionTokens: int, summaryMaxChars: nat)
      ensures this.store == store && tasks == [] && inflight == map[] && read == map[]
    {
      this.store := store;
      this.projectionTokens := projectionTokens;
      this.summaryMaxChars := summaryMaxChars;
      tasks, inflight, read := [], map[], map[];
    }

    ghost function View(): Summaries.World
      reads this, store
    {
      Summaries.World(store.View(), tasks, read)
    }

    ghost function Config(): Summaries.Config {
      Summaries.Config(projectionTokens, summaryMaxChars, store.maxMessageChars)
    }

    predicate Live(cid: int)
      reads this
    {
      cid in inflight && inflight[cid] < |tasks| && !tasks[inflight[cid]].Finished?
    }

    // Starts a task unless this runner still has a live one for the conversation.
    method MaybeTrigger(cid: int, owner: string)
      modifies this
      ensures old(Live(cid)) ==> View() == old(View()) && inflight == old(inflight)
      ensures !old(Live(cid)) ==> View() == Summaries.Next(old(View()), Summaries.Spawn(cid, owner), Config())
      ensures !old(Live(cid)) ==>
              tasks == old(tasks) + [Summaries.Created(cid, owner)] && inflight == old(inflight)[cid := |old(tasks)|]
      ensures Live(cid)
    {
      if Live(cid) {
        return;
      }
      inflight := inflight[cid := |tasks|];
      tasks := tasks + [Summaries.Created(cid, owner)];
    }

    method ReadAnchors(t: nat)
      requires t < |tasks| && tasks[t].Created?
      modifies this
      ensures View() == Summaries.Next(old(View()), Summaries.ReadAnchors(t), Config())
      ensures tasks == old(tasks)[t := tasks[t]] && read == old(read) && inflight == old(inflight)
      ensures var cid, owner := old(tasks[t]).cid, old(tasks[t]).owner;
              if && cid in store.conversations && store.conversations[cid].owner == owner
                 && store.conversations[cid].layer1From.Some?
                 && OrZero(store.conversations[cid].summaryUpto) < store.conversations[cid].layer1From.value
              then tasks[t] == Summaries.Fetching(cid, OrZero(store.conversations[cid].summaryUpto),
                                                  store.conversations[cid].layer1From.value)
              else tasks[t] == Summaries.Finished
    {
      var cid := tasks[t].cid;
      var meta := GetMeta(store.View(), cid, tasks[t].owner);
      var from := OrZero(meta.summaryUpto);
      if meta.layer1From.None? || meta.layer1From.value <= from {
        tasks := tasks[t := Summaries.Finished];
      } else {
        tasks := tasks[t := Summaries.Fetching(cid, from, meta.layer1From.value)];
      }
    }

    method FetchRows(t: nat)
      requires t < |tasks| && tasks[t].Fetching?
      modifies this
      ensures View() == Summaries.Next(old(View()), Summaries.FetchRows(t), Config())
      ensures tasks == old(tasks)[t := tasks[t]] && read == old(read) && inflight == old(inflight)
      ensures var task := old(tasks[t]);
              var texts := Transcript(store.rows, task.cid, task.from, task.upto);
              tasks[t] == if texts == [] then Summaries.Finished
                          else Summaries.Summarising(task.cid, task.from, task.upto, texts)
    {
      var task := tasks[t];
      var span := store.FetchSpanTexts(task.cid, task.from, task.upto);
      var rows := KeepTexts(span);
      if rows == [] {
        tasks := tasks[t := Summaries.Finished];
      } else {
        tasks := tasks[t := Summaries.Summarising(task.cid, task.from, task.upto, rows)];
      }
    }

    method KeepTexts(span: seq<SpanText>) returns (rows: seq<SpanText>)
      ensures rows == WithText(span)
    {
      rows := [];
      for i := 0 to |span|
        invariant rows == WithText(span[..i])
      {
        assert span[..i + 1][..i] == span[..i];
        if span[i].text != "" {
          rows := rows + [span[i]];
        }
      }
      assert span[..|span|] == span;
    }

    // The model has answered: clip the reply and append it by compare-and-set.
    method Respond(t: nat, reply: string)
      requires t < |tasks| && tasks[t].Summarising?
      modifies this, store
      ensures View() == Summaries.Next(old(View()), Summaries.Respond(t, reply), Config())
      ensures tasks == old(tasks)[t := Summaries.Finished] && inflight == old(inflight) && store.rows == old(store.rows)
      ensures var task, text := old(tasks[t]), Strip(reply);
              var content := if |text| > summaryMaxChars then text[..summaryMaxChars] else text;
              store.View() == Ledger.AppendSummary(old(store.View()), task.cid, task.from, task.upto, content,
                                                   projectionTokens)
    {
      var task := tasks[t];
      var content := Strip(reply);
      if |content| > summaryMaxChars {
        content := content[..summaryMaxChars];
      }
      var result := store.AppendSummary(task.cid, task.from, task.upto, content, projectionTokens);
      if result.Applied? {
        ghost var before := if task.cid in read then read[task.cid] else [];
        read := read[task.cid := before + [task.rows]];
      }
      tasks := tasks[t := Summaries.Finished];
    }
  }
}
