/** Background summaries over the ledger (app/services/summarizer.py): turn commits, layer-1 moves and
    any number of summary tasks interleave as atomic store transactions. */
module Summaries {
  import opened Basics
  import opened Messages
  import opened Ledger

  // A task between two awaits of SummaryRunner._run.
  datatype Task =
    | Created(cid: int, owner: string)
    | Fetching(cid: int, from: int, upto: int)
    | Summarising(cid: int, from: int, upto: int, rows: seq<SpanText>)
    | Finished

  // read is a history variable: for each conversation, the rows each applied segment was made from.
  datatype World = World(db: Db, tasks: seq<Task>, read: map<int, seq<seq<SpanText>>>)

  datatype Config = Config(projectionTokens: int, summaryMaxChars: nat, maxMessageChars: nat)

  datatype Event =
    | NewConversation(cid: int, owner: string)
    | UserSpeaks(cid: int, content: string)
    | TurnCommits(cid: int, messages: seq<StoredMessage>, userRow: Option<int>)
    | RollBack(lostIds: nat)
    | Degrade(cid: int, owner: string, newId: int)
    | Spawn(cid: int, owner: string)
    | ReadAnchors(t: nat)
    | FetchRows(t: nat)
    | Respond(t: nat, reply: string)
    | Fail(t: nat)

  function ReadOf(w: World, cid: int): seq<seq<SpanText>> {
    if cid in w.read then w.read[cid] else []
  }

  function Clip(text: string, maxChars: nat): string {
    if |Strip(text)| > maxChars then Strip(text)[..maxChars] else Strip(text)
  }

  function AfterReadAnchors(db: Db, cid: int, owner: string): Task {
    var meta := GetMeta(db, cid, owner);
    var from := OrZero(meta.summaryUpto);
    if meta.layer1From.None? || meta.layer1From.value <= from then Finished
    else Fetching(cid, from, meta.layer1From.value)
  }

  function AfterFetch(db: Db, task: Task): Task
    requires task.Fetching?
  {
    var rows := Transcript(db.rows, task.cid, task.from, task.upto);
    if rows == [] then Finished else Summarising(task.cid, task.from, task.upto, rows)
  }

  function Next(w: World, e: Event, cfg: Config): World {
    match e
    case NewConversation(cid, owner) =>
      if cid in w.db.conversations || cid in w.read then w
      else w.(db := w.db.(conversations := w.db.conversations[cid := Conversation(owner, None, None, None)]))
    case UserSpeaks(cid, content) => w.(db := AppendUser(w.db, cid, content, cfg.maxMessageChars))
    case TurnCommits(cid, messages, userRow) => w.(db := CommitTurn(w.db, cid, messages, userRow))
    case RollBack(lostIds) => w.(db := w.db.(nextId := w.db.nextId + lostIds))
    case Degrade(cid, owner, newId) => w.(db := MoveLayer1(w.db, cid, owner, newId))
    case Spawn(cid, owner) => w.(tasks := w.tasks + [Created(cid, owner)])
    case ReadAnchors(t) =>
      if t >= |w.tasks| || !w.tasks[t].Created? then w
      else w.(tasks := w.tasks[t := AfterReadAnchors(w.db, w.tasks[t].cid, w.tasks[t].owner)])
    case FetchRows(t) =>
      if t >= |w.tasks| || !w.tasks[t].Fetching? then w
      else w.(tasks := w.tasks[t := AfterFetch(w.db, w.tasks[t])])
    case Respond(t, reply) =>
      if t >= |w.tasks| || !w.tasks[t].Summarising? then w
      else AppendStep(w, t, reply, cfg)
    case Fail(t) => if t >= |w.tasks| then w else w.(tasks := w.tasks[t := Finished])
  }

  function AppendStep(w: World, t: nat, reply: string, cfg: Config): World
    requires t < |w.tasks| && w.tasks[t].Summarising?
  {
    var task := w.tasks[t];
    var applied := AppendSummaryResult(w.db, task.cid, task.from, task.upto).Applied?;
    World(AppendSummary(w.db, task.cid, task.from, task.upto, Clip(reply, cfg.summaryMaxChars), cfg.projectionTokens),
          w.tasks[t := Finished],
          if applied then w.read[task.cid := ReadOf(w, task.cid) + [task.rows]] else w.read)
  }

  function Run(w: World, events: seq<Event>, cfg: Config): World {
    if events == [] then w else Next(Run(w, events[..|events| - 1], cfg), events[|events| - 1], cfg)
  }

  // ---------------------------------------------------------------- invariant

  // A live task holds a span that starts and ends inside the part layer 1 has left behind.
  ghost predicate SpanAhead(db: Db, cid: int, from: int, upto: int) {
    && cid in db.conversations && 0 <= from < upto
    && db.conversations[cid].layer1From.Some? && upto <= db.conversations[cid].layer1From.value
  }

  ghost predicate TaskOk(db: Db, task: Task) {
    match task
    case Fetching(cid, from, upto) => SpanAhead(db, cid, from, upto)
    case Summarising(cid, from, upto, rows) =>
      SpanAhead(db, cid, from, upto) && rows == Transcript(db.rows, cid, from, upto) && rows != []
    case _ => true
  }

  // Each stored segment was made from exactly the non-empty user and assistant rows of its own range.
  ghost predicate ReadMatches(rows: seq<Row>, cid: int, segments: seq<Segment>, read: seq<seq<SpanText>>) {
    && |read| == |segments|
    && forall i :: 0 <= i < |read| ==> read[i] == Transcript(rows, cid, segments[i].from, segments[i].upto)
  }

  ghost predicate Inv(w: World, cfg: Config) {
    && Wf(w.db, cfg.projectionTokens)
    && w.read.Keys <= w.db.conversations.Keys
    && (forall t :: 0 <= t < |w.tasks| ==> TaskOk(w.db, w.tasks[t]))
    && (forall cid :: cid in w.db.conversations ==>
          ReadMatches(w.db.rows, cid, SegmentsOf(w.db, cid), ReadOf(w, cid)))
  }

  function Start(): World {
    World(Db(map[], [], map[], 1), [], map[])
  }

  // What later states keep of earlier ones: rows, segments and their sources are only appended to and
  // both anchors only move forward.
  ghost predicate Forward(w: World, w': World) {
    && w.db.rows <= w'.db.rows
    && w.db.conversations.Keys <= w'.db.conversations.Keys
    && forall cid :: cid in w.db.conversations ==>
         ConversationForward(w.db.conversations[cid], w'.db.conversations[cid])
         && SegmentsOf(w.db, cid) <= SegmentsOf(w'.db, cid)
         && ReadOf(w, cid) <= ReadOf(w', cid)
  }

  ghost predicate ConversationForward(c: Conversation, c': Conversation) {
    && c'.owner == c.owner
    && OrZero(c.summaryUpto) <= OrZero(c'.summaryUpto)
    && (c.layer1From.Some? ==> c'.layer1From.Some? && c.layer1From.value <= c'.layer1From.value)
  }

  // ---------------------------------------------------------------- one step

  lemma InsertKeepsInv(w: World, cid: int, messages: seq<StoredMessage>, cfg: Config)
    requires Inv(w, cfg)
    ensures Inv(w.(db := InsertRows(w.db, cid, messages)), cfg)
  {
    var db, db' := w.db, InsertRows(w.db, cid, messages);
    var w' := w.(db := db');
    InsertRowsKeepsWf(db, cid, messages, cfg.projectionTokens);
    var more := NewRows(messages, cid, db.nextId);
    forall t | 0 <= t < |w'.tasks| ensures TaskOk(db', w'.tasks[t]) {
      var task := w.tasks[t];
      assert TaskOk(db, task);
      if task.Summarising? {
        assert AnchorsOk(db.conversations[task.cid], SegmentsOf(db, task.cid), db.nextId, cfg.projectionTokens);
        SpanIsStable(db.rows, more, task.cid, task.from, task.upto);
      }
    }
    forall c | c in db'.conversations
      ensures ReadMatches(db'.rows, c, SegmentsOf(db', c), ReadOf(w', c))
    {
      var segments := SegmentsOf(db, c);
      assert AnchorsOk(db.conversations[c], segments, db.nextId, cfg.projectionTokens);
      assert ReadMatches(db.rows, c, segments, ReadOf(w, c));
      TilesBounds(segments, OrZero(db.conversations[c].summaryUpto));
      forall i | 0 <= i < |segments|
        ensures Transcript(db'.rows, c, segments[i].from, segments[i].upto)
                == Transcript(db.rows, c, segments[i].from, segments[i].upto)
      {
        SpanIsStable(db.rows, more, c, segments[i].from, segments[i].upto);
      }
    }
  }

  lemma DegradeKeepsInv(w: World, cid: int, owner: string, newId: int, cfg: Config)
    requires Inv(w, cfg)
    ensures Inv(Next(w, Degrade(cid, owner, newId), cfg), cfg)
  {
    var w' := Next(w, Degrade(cid, owner, newId), cfg);
    MoveLayer1KeepsWf(w.db, cid, owner, newId, cfg.projectionTokens);
    forall t | 0 <= t < |w'.tasks| ensures TaskOk(w'.db, w'.tasks[t]) {
      assert TaskOk(w.db, w.tasks[t]);
    }
    forall c | c in w'.db.conversations
      ensures ReadMatches(w'.db.rows, c, SegmentsOf(w'.db, c), ReadOf(w', c))
    {
      assert ReadMatches(w.db.rows, c, SegmentsOf(w.db, c), ReadOf(w, c));
    }
  }

  // A live task's write is refused only because another task moved the summary anchor: never because
  // layer 1 moved or the conversation is gone.
  lemma OnlyTheAnchorRefuses(w: World, t: nat, cfg: Config)
    requires Inv(w, cfg) && t < |w.tasks| && w.tasks[t].Summarising?
    ensures var task := w.tasks[t];
            var r := AppendSummaryResult(w.db, task.cid, task.from, task.upto);
            (r.Applied? || r.AnchorMoved?)
            && (r.Applied? <==> OrZero(w.db.conversations[task.cid].summaryUpto) == task.from)
  {
    assert TaskOk(w.db, w.tasks[t]);
  }

  lemma AppendKeepsTasks(w: World, t: nat, reply: string, cfg: Config)
    requires t < |w.tasks| && w.tasks[t].Summarising?
    requires forall u :: 0 <= u < |w.tasks| ==> TaskOk(w.db, w.tasks[u])
    ensures var w' := AppendStep(w, t, reply, cfg);
            forall u :: 0 <= u < |w'.tasks| ==> TaskOk(w'.db, w'.tasks[u])
  {
    var w' := AppendStep(w, t, reply, cfg);
    forall u | 0 <= u < |w'.tasks| ensures TaskOk(w'.db, w'.tasks[u]) {
      assert TaskOk(w.db, w.tasks[u]);
    }
  }

  ghost predicate AllReadMatch(w: World) {
    forall cid :: cid in w.db.conversations ==>
      ReadMatches(w.db.rows, cid, SegmentsOf(w.db, cid), ReadOf(w, cid))
  }

  lemma AppendKeepsReads(w: World, t: nat, reply: string, cfg: Config)
    requires t < |w.tasks| && w.tasks[t].Summarising? && TaskOk(w.db, w.tasks[t]) && AllReadMatch(w)
    ensures AllReadMatch(AppendStep(w, t, reply, cfg))
  {
    var w' := AppendStep(w, t, reply, cfg);
    forall c | c in w'.db.conversations
      ensures ReadMatches(w'.db.rows, c, SegmentsOf(w'.db, c), ReadOf(w', c))
    {
      assert ReadMatches(w.db.rows, c, SegmentsOf(w.db, c), ReadOf(w, c));
    }
  }

  lemma AppendKeepsInv(w: World, t: nat, reply: string, cfg: Config)
    requires Inv(w, cfg) && t < |w.tasks| && w.tasks[t].Summarising?
    ensures Inv(AppendStep(w, t, reply, cfg), cfg)
  {
    var task := w.tasks[t];
    assert TaskOk(w.db, task);
    if AppendSummaryResult(w.db, task.cid, task.from, task.upto).Applied? {
      AppendSummaryKeepsWfIff(w.db, task.cid, task.from, task.upto, Clip(reply, cfg.summaryMaxChars),
          cfg.projectionTokens);
    }
    AppendKeepsTasks(w, t, reply, cfg);
    AppendKeepsReads(w, t, reply, cfg);
  }

  lemma TaskStepKeepsInv(w: World, t: nat, task': Task, cfg: Config)
    requires Inv(w, cfg) && t < |w.tasks| && TaskOk(w.db, task')
    ensures Inv(w.(tasks := w.tasks[t := task']), cfg)
  {
    var w' := w.(tasks := w.tasks[t := task']);
    forall c | c in w'.db.conversations
      ensures ReadMatches(w'.db.rows, c, SegmentsOf(w'.db, c), ReadOf(w', c))
    {
      assert ReadMatches(w.db.rows, c, SegmentsOf(w.db, c), ReadOf(w, c));
    }
  }

  lemma QuietStepKeepsInv(w: World, e: Event, cfg: Config)
    requires Inv(w, cfg) && (e.NewConversation? || e.RollBack? || e.Spawn?)
    ensures Inv(Next(w, e, cfg), cfg)
  {
    var w' := Next(w, e, cfg);
    forall t | 0 <= t < |w'.tasks| ensures TaskOk(w'.db, w'.tasks[t]) {
      assert t < |w.tasks| ==> TaskOk(w.db, w.tasks[t]);
    }
    forall c | c in w'.db.conversations
      ensures ReadMatches(w'.db.rows, c, SegmentsOf(w'.db, c), ReadOf(w', c))
      ensures AnchorsOk(w'.db.conversations[c], SegmentsOf(w'.db, c), w'.db.nextId, cfg.projectionTokens)
    {
      if c in w.db.conversations {
        assert ReadMatches(w.db.rows, c, SegmentsOf(w.db, c), ReadOf(w, c));
        assert AnchorsOk(w.db.conversations[c], SegmentsOf(w.db, c), w.db.nextId, cfg.projectionTokens);
      } else {
        assert SegmentsOf(w'.db, c) == [] && ReadOf(w', c) == [];
      }
    }
  }

  lemma StepKeepsInv(w: World, e: Event, cfg: Config)
    requires Inv(w, cfg)
    ensures Inv(Next(w, e, cfg), cfg)
  {
    match e
    case UserSpeaks(cid, content) => InsertKeepsInv(w, cid, [UserMessage(content)], cfg);
    case TurnCommits(cid, messages, userRow) =>
      if |messages| >= 2 {
        InsertKeepsInv(w, cid, if userRow.Some? then messages[1..] else messages, cfg);
      }
    case Degrade(cid, owner, newId) => DegradeKeepsInv(w, cid, owner, newId, cfg);
    case ReadAnchors(t) =>
      if t < |w.tasks| && w.tasks[t].Created? {
        var task := AfterReadAnchors(w.db, w.tasks[t].cid, w.tasks[t].owner);
        if task.Fetching? {
          assert AnchorsOk(w.db.conversations[task.cid], SegmentsOf(w.db, task.cid), w.db.nextId, cfg.projectionTokens);
          TilesBounds(SegmentsOf(w.db, task.cid), task.from);
        }
        TaskStepKeepsInv(w, t, task, cfg);
      }
    case FetchRows(t) =>
      if t < |w.tasks| && w.tasks[t].Fetching? {
        assert TaskOk(w.db, w.tasks[t]);
        TaskStepKeepsInv(w, t, AfterFetch(w.db, w.tasks[t]), cfg);
      }
    case Respond(t, reply) =>
      if t < |w.tasks| && w.tasks[t].Summarising? {
        AppendKeepsInv(w, t, reply, cfg);
      }
    case Fail(t) =>
      if t < |w.tasks| {
        TaskStepKeepsInv(w, t, Finished, cfg);
      }
    case _ => QuietStepKeepsInv(w, e, cfg);
  }

  lemma RespondMovesForward(w: World, t: nat, reply: string, cfg: Config)
    requires Inv(w, cfg) && t < |w.tasks| && w.tasks[t].Summarising?
    ensures Forward(w, AppendStep(w, t, reply, cfg))
  {
    assert TaskOk(w.db, w.tasks[t]);
  }

  lemma StepMovesForward(w: World, e: Event, cfg: Config)
    requires Inv(w, cfg)
    ensures Forward(w, Next(w, e, cfg))
  {
    if e.Respond? && e.t < |w.tasks| && w.tasks[e.t].Summarising? {
      RespondMovesForward(w, e.t, e.reply, cfg);
    } else {
      var w' := Next(w, e, cfg);
      forall cid | cid in w.db.conversations
        ensures ConversationForward(w.db.conversations[cid], w'.db.conversations[cid])
        ensures SegmentsOf(w.db, cid) <= SegmentsOf(w'.db, cid) && ReadOf(w, cid) <= ReadOf(w', cid)
      {
      }
    }
  }

  // ---------------------------------------------------------------- whole runs

  lemma {:induction false} RunKeepsInv(w: World, events: seq<Event>, cfg: Config)
    requires Inv(w, cfg)
    ensures Inv(Run(w, events, cfg), cfg)
  {
    if events != [] {
      RunKeepsInv(w, events[..|events| - 1], cfg);
      StepKeepsInv(Run(w, events[..|events| - 1], cfg), events[|events| - 1], cfg);
    }
  }

  lemma {:induction false} RunMovesForward(w: World, events: seq<Event>, cfg: Config)
    requires Inv(w, cfg)
    ensures Forward(w, Run(w, events, cfg))
  {
    if events != [] {
      var mid := Run(w, events[..|events| - 1], cfg);
      RunMovesForward(w, events[..|events| - 1], cfg);
      RunKeepsInv(w, events[..|events| - 1], cfg);
      StepMovesForward(mid, events[|events| - 1], cfg);
    }
  }

  // ---------------------------------------------------------------- what one task achieves

  predicate Concerns(e: Event, t: nat) {
    match e
    case ReadAnchors(u) => u == t
    case FetchRows(u) => u == t
    case Respond(u, _) => u == t
    case Fail(u) => u == t
    case _ => false
  }

  ghost predicate LeaveAlone(events: seq<Event>, t: nat) {
    forall i :: 0 <= i < |events| ==> !Concerns(events[i], t)
  }

  lemma OthersLeaveIt(w: World, e: Event, t: nat, cfg: Config)
    requires t < |w.tasks| && !Concerns(e, t)
    ensures t < |Next(w, e, cfg).tasks| && Next(w, e, cfg).tasks[t] == w.tasks[t]
  {
  }

  lemma {:induction false} RunLeavesIt(w: World, events: seq<Event>, t: nat, cfg: Config)
    requires t < |w.tasks| && LeaveAlone(events, t)
    ensures t < |Run(w, events, cfg).tasks| && Run(w, events, cfg).tasks[t] == w.tasks[t]
  {
    if events != [] {
      var init, last := events[..|events| - 1], events[|events| - 1];
      RunLeavesIt(w, init, t, cfg);
      assert !Concerns(last, t);
      OthersLeaveIt(Run(w, init, cfg), last, t, cfg);
    }
  }

  // A task that may start here takes everything layer 1 has left behind and no summary covers.
  ghost predicate HasWork(w: World, t: nat, cid: int, from: int, upto: int) {
    && t < |w.tasks| && w.tasks[t].Created? && w.tasks[t].cid == cid
    && cid in w.db.conversations && w.db.conversations[cid].owner == w.tasks[t].owner
    && w.db.conversations[cid].layer1From == Some(upto) && OrZero(w.db.conversations[cid].summaryUpto) == from < upto
  }

  // What a task has made of its conversation: one more segment, over exactly its span, up to the anchor it read.
  ghost predicate HasSummarised(before: World, after: World, cid: int, from: int, upto: int, content: string) {
    && cid in after.db.conversations && after.db.conversations[cid].summaryUpto == Some(upto)
    && SegmentsOf(after.db, cid)
       == SegmentsOf(before.db, cid) + [Segment(|SegmentsOf(before.db, cid)| + 1, from, upto, content)]
    && ReadOf(after, cid) == ReadOf(before, cid) + [Transcript(before.db.rows, cid, from, upto)]
  }

  // Rows that come later do not change what a span below the next id says.
  lemma TranscriptStays(w: World, events: seq<Event>, cid: int, from: int, upto: int, cfg: Config)
    requires Inv(w, cfg) && upto < w.db.nextId
    ensures Transcript(Run(w, events, cfg).db.rows, cid, from, upto) == Transcript(w.db.rows, cid, from, upto)
  {
    RunMovesForward(w, events, cfg);
    RunKeepsInv(w, events, cfg);
    var rows, later := w.db.rows, Run(w, events, cfg).db.rows;
    RunRowsAreNew(w, events, cfg);
    SpanIsStable(rows, later[|rows|..], cid, from, upto);
    assert later == rows + later[|rows|..];
  }

  lemma {:induction false} RunRowsAreNew(w: World, events: seq<Event>, cfg: Config)
    requires Inv(w, cfg)
    ensures w.db.nextId <= Run(w, events, cfg).db.nextId && w.db.rows <= Run(w, events, cfg).db.rows
    ensures forall i :: |w.db.rows| <= i < |Run(w, events, cfg).db.rows| ==>
            w.db.nextId <= Run(w, events, cfg).db.rows[i].id
  {
    if events != [] {
      RunRowsAreNew(w, events[..|events| - 1], cfg);
      StepRowsAreNew(Run(w, events[..|events| - 1], cfg), events[|events| - 1], cfg);
    }
  }

  lemma StepRowsAreNew(w: World, e: Event, cfg: Config)
    ensures var w' := Next(w, e, cfg);
            && w.db.nextId <= w'.db.nextId && w.db.rows <= w'.db.rows
            && forall i :: |w.db.rows| <= i < |w'.db.rows| ==> w.db.nextId <= w'.db.rows[i].id
  {
  }

  lemma ReadTask(w: World, t: nat, cid: int, from: int, upto: int, cfg: Config)
    requires Inv(w, cfg) && HasWork(w, t, cid, from, upto)
    ensures var read := Next(w, ReadAnchors(t), cfg);
            && read.tasks[t] == Fetching(cid, from, upto) && read.db == w.db && upto < w.db.nextId
  {
    assert AnchorsOk(w.db.conversations[cid], SegmentsOf(w.db, cid), w.db.nextId, cfg.projectionTokens);
  }

  // What the task has read and fetched is the transcript as it was when it began.
  lemma FetchedTask(w: World, t: nat, cid: int, from: int, upto: int, a: seq<Event>, cfg: Config)
    requires Inv(w, cfg) && HasWork(w, t, cid, from, upto) && LeaveAlone(a, t)
    ensures var fetched := Next(Run(Next(w, ReadAnchors(t), cfg), a, cfg), FetchRows(t), cfg);
            var texts := Transcript(fetched.db.rows, cid, from, upto);
            && Inv(fetched, cfg) && t < |fetched.tasks| && texts == Transcript(w.db.rows, cid, from, upto)
            && fetched.tasks[t] == if texts == [] then Finished else Summarising(cid, from, upto, texts)
  {
    ReadTask(w, t, cid, from, upto, cfg);
    var read := Next(w, ReadAnchors(t), cfg);
    StepKeepsInv(w, ReadAnchors(t), cfg);
    RunLeavesIt(read, a, t, cfg);
    RunKeepsInv(read, a, cfg);
    TranscriptStays(read, a, cid, from, upto, cfg);
    StepKeepsInv(Run(read, a, cfg), FetchRows(t), cfg);
  }

  // Progress. A task with work that is read, fetched and answered, with the summary anchor where it was when the answer
  // comes, ends with the summaries reaching the layer-1 anchor it read; its new segment covers exactly that span, and
  // its content is the stripped reply cut to the limit. Without any text in the span nothing is appended.
  lemma TaskSummarises(w: World, t: nat, cid: int, from: int, upto: int, a: seq<Event>, b: seq<Event>, reply: string,
                       cfg: Config)
    requires Inv(w, cfg) && HasWork(w, t, cid, from, upto) && LeaveAlone(a, t) && LeaveAlone(b, t)
    requires var fetched := Next(Run(Next(w, ReadAnchors(t), cfg), a, cfg), FetchRows(t), cfg);
             var asked := Run(fetched, b, cfg);
             cid in asked.db.conversations && OrZero(asked.db.conversations[cid].summaryUpto) == from
    ensures var fetched := Next(Run(Next(w, ReadAnchors(t), cfg), a, cfg), FetchRows(t), cfg);
            var asked := Run(fetched, b, cfg);
            var done := Next(asked, Respond(t, reply), cfg);
            && t < |done.tasks| && done.tasks[t] == Finished
            && (if Transcript(w.db.rows, cid, from, upto) == [] then done == asked
                else HasSummarised(asked, done, cid, from, upto, Clip(reply, cfg.summaryMaxChars)))
  {
    FetchedTask(w, t, cid, from, upto, a, cfg);
    AnswerSummarises(Next(Run(Next(w, ReadAnchors(t), cfg), a, cfg), FetchRows(t), cfg), t, cid, from, upto, b, reply,
                     cfg);
  }

  lemma TurnEndsAtABoundary(db: Db, cid: int, owner: string, messages: seq<StoredMessage>)
    requires RowsInOrder(db.rows, db.nextId) && messages != []
    requires cid in db.conversations && db.conversations[cid] == Conversation(owner, None, None, None)
    ensures MoveAccepted(InsertRows(db, cid, messages), cid, owner, db.nextId + |messages| - 1)
  {
    var rows, last := InsertRows(db, cid, messages).rows, db.nextId + |messages| - 1;
    assert rows[|rows| - 1] == Row(last, cid, messages[|messages| - 1]);
    forall k | 0 <= k < |rows| ensures rows[k].id <= last {
    }
    NextRoleNone(rows, cid, last);
  }

  // How a task comes to have work, in four steps: a new conversation and a turn in it,
  lemma TurnSpoken(w: World, cid: int, owner: string, messages: seq<StoredMessage>, cfg: Config)
    requires cid !in w.db.conversations && cid !in w.read && ValidTurn(messages, DB_MAX_TOOL_CALLS)
    ensures var db := w.db.(conversations := w.db.conversations[cid := Conversation(owner, None, None, None)]);
            Next(Next(w, NewConversation(cid, owner), cfg), TurnCommits(cid, messages, None), cfg)
            == w.(db := InsertRows(db, cid, messages))
  {
  }

  lemma UserIsHeard(w: World, cid: int, content: string, cfg: Config)
    requires cid in w.db.conversations && |content| <= cfg.maxMessageChars
    ensures Next(w, UserSpeaks(cid, content), cfg)
            == w.(db := InsertRows(w.db, cid, [StoredMessage(User, Some(content), None)]))
  {
  }

  // then the cut behind it, which the database accepts (TurnEndsAtABoundary), and the task; what it has to summarise
  // is the whole turn, which always has text (TurnHasText).
  lemma CutGivesWork(w: World, cid: int, owner: string, upto: int, cfg: Config)
    requires MoveAccepted(w.db, cid, owner, upto) && 0 < upto
    requires w.db.conversations[cid] == Conversation(owner, None, None, None)
    ensures var ready := Next(Next(w, Degrade(cid, owner, upto), cfg), Spawn(cid, owner), cfg);
            HasWork(ready, |w.tasks|, cid, 0, upto) && ready.db.rows == w.db.rows
  {
  }

  // The user row of a turn always says something.
  lemma TurnHasText(db: Db, cid: int, messages: seq<StoredMessage>)
    requires 0 < db.nextId && RowsInOrder(db.rows, db.nextId) && ValidTurn(messages, DB_MAX_TOOL_CALLS)
    ensures Transcript(InsertRows(db, cid, messages).rows, cid, 0, db.nextId + |messages| - 1) != []
  {
    var db', last := InsertRows(db, cid, messages), db.nextId + |messages| - 1;
    var k, text := |db.rows|, messages[0].content.value;
    assert db'.rows[k] == Row(db.nextId, cid, messages[0]);
    SpanSpec(db'.rows, db'.nextId, cid, 0, last);
    WithTextSpec(Span(db'.rows, cid, 0, last));
    var x := SpanText(db.nextId, User, text);
    assert IsSpanText(db'.rows, cid, 0, last, k, x);
    assert x in Transcript(db'.rows, cid, 0, last);
  }

  lemma AnswerSummarises(w: World, t: nat, cid: int, from: int, upto: int, b: seq<Event>, reply: string, cfg: Config)
    requires Inv(w, cfg) && t < |w.tasks| && LeaveAlone(b, t)
    requires var texts := Transcript(w.db.rows, cid, from, upto);
             w.tasks[t] == if texts == [] then Finished else Summarising(cid, from, upto, texts)
    requires cid in Run(w, b, cfg).db.conversations && OrZero(Run(w, b, cfg).db.conversations[cid].summaryUpto) == from
    ensures var asked := Run(w, b, cfg);
            var done := Next(asked, Respond(t, reply), cfg);
            && t < |done.tasks| && done.tasks[t] == Finished
            && (if Transcript(w.db.rows, cid, from, upto) == [] then done == asked
                else HasSummarised(asked, done, cid, from, upto, Clip(reply, cfg.summaryMaxChars)))
  {
    RunLeavesIt(w, b, t, cfg);
    RunKeepsInv(w, b, cfg);
    var asked := Run(w, b, cfg);
    if w.tasks[t].Summarising? {
      OnlyTheAnchorRefuses(asked, t, cfg);
      assert TaskOk(asked.db, asked.tasks[t]);
      AppliedAppend(asked, t, reply, cfg);
    }
  }

  lemma AppliedSegments(db: Db, cid: int, from: int, upto: int, content: string, tokens: int)
    requires AppendSummaryResult(db, cid, from, upto).Applied?
    ensures var after := AppendSummary(db, cid, from, upto, content, tokens);
            && cid in after.conversations && after.conversations[cid].summaryUpto == Some(upto)
            && SegmentsOf(after, cid)
               == SegmentsOf(db, cid) + [Segment(|SegmentsOf(db, cid)| + 1, from, upto, content)]
  {
  }

  lemma AppliedAppend(w: World, t: nat, reply: string, cfg: Config)
    requires t < |w.tasks| && w.tasks[t].Summarising?
    requires AppendSummaryResult(w.db, w.tasks[t].cid, w.tasks[t].from, w.tasks[t].upto).Applied?
    requires w.tasks[t].rows == Transcript(w.db.rows, w.tasks[t].cid, w.tasks[t].from, w.tasks[t].upto)
    ensures var task := w.tasks[t];
            HasSummarised(w, AppendStep(w, t, reply, cfg), task.cid, task.from, task.upto,
                          Clip(reply, cfg.summaryMaxChars))
  {
    var task := w.tasks[t];
    AppliedSegments(w.db, task.cid, task.from, task.upto, Clip(reply, cfg.summaryMaxChars), cfg.projectionTokens);
  }

  function Flatten(parts: seq<seq<SpanText>>): seq<SpanText> {
    if parts == [] then [] else Flatten(parts[..|parts| - 1]) + parts[|parts| - 1]
  }

  lemma {:induction false} SegmentsCover(rows: seq<Row>, nextId: int, cid: int, segments: seq<Segment>, upto: int,
                                         read: seq<seq<SpanText>>)
    requires RowsInOrder(rows, nextId) && Tiles(segments, upto) && ReadMatches(rows, cid, segments, read)
    ensures Flatten(read) == Transcript(rows, cid, 0, upto)
  {
    if segments == [] {
      SpanOfNothing(rows, cid);
    } else {
      var n := |segments|;
      TilesBounds(segments, upto);
      SegmentsCover(rows, nextId, cid, segments[..n - 1], segments[n - 1].from, read[..n - 1]);
      TranscriptSplits(rows, nextId, cid, 0, segments[n - 1].from, upto);
    }
  }

  lemma {:induction false} SpanOfNothing(rows: seq<Row>, cid: int)
    ensures Span(rows, cid, 0, 0) == []
  {
    if rows != [] {
      SpanOfNothing(rows[..|rows| - 1], cid);
    }
  }

  // Main result. In every interleaving the stored segments of a conversation are numbered 1..n and tile
  // (0, summaryUpto], which never overtakes the layer-1 anchor, and what they were made from is, put
  // together, the ledger's transcript up to the anchor: no row is lost and none is summarised twice.
  lemma SummariesCoverTheLedger(events: seq<Event>, cfg: Config, cid: int)
    requires cid in Run(Start(), events, cfg).db.conversations
    ensures var w := Run(Start(), events, cfg);
            var c := w.db.conversations[cid];
            && Tiles(SegmentsOf(w.db, cid), OrZero(c.summaryUpto))
            && (c.summaryUpto.Some? ==> c.layer1From.Some? && c.summaryUpto.value <= c.layer1From.value)
            && ReadMatches(w.db.rows, cid, SegmentsOf(w.db, cid), ReadOf(w, cid))
            && Flatten(ReadOf(w, cid)) == Transcript(w.db.rows, cid, 0, OrZero(c.summaryUpto))
  {
    RunKeepsInv(Start(), events, cfg);
    var w := Run(Start(), events, cfg);
    var c := w.db.conversations[cid];
    assert AnchorsOk(c, SegmentsOf(w.db, cid), w.db.nextId, cfg.projectionTokens);
    SegmentsCover(w.db.rows, w.db.nextId, cid, SegmentsOf(w.db, cid), OrZero(c.summaryUpto), ReadOf(w, cid));
  }
}
