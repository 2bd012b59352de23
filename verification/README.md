# A verified model of the customer-service chat back end

The back end answers customers over a message ledger, a knowledge base kept in two stores, and a review queue that turns
unanswered questions into knowledge. This project models the protocols that hold these together, and the text and token
algorithms they rest on, and proves what they promise.

| files | what they model |
|---|---|
| `Messages`, `Ledger`, `Store`, `Summaries` | the ledger with its two anchors, the store transactions, and background summary tasks that read, wait for the model and append by compare-and-set |
| `ContextLayers`, `Restamping`, `History` | the three-layer view of a history, the cut that moves layer 1, re-stamping of old checkpoints, and a conversation over many turns |
| `TokenBudget` | the estimator, truncation, and the projection of summary segments |
| `AgentTurn` | one agent turn: loop, batch contract, parked write, confirmation, and the rows it leaves |
| `TicketWrite` | the confirmed ticket write with its idempotency rows, timeouts and late commits |
| `ReviewQueue`, `Flywheel`, `Wakeup` | pooled questions, the review queue, the draining worker and its event |
| `KnowledgeRows`, `Ingest` | the two stores of the knowledge base, ingestion and selective reset, with a stop possible after every commit |
| `Publication`, `ReviewService` | approving reviews into the knowledge base, with reset and rebuild around it |
| `ChunkText`, `ChunkPacking`, `Chunking` | cutting Markdown documents into chunks |
| `MemoryStore` | the in-memory session store |
| `Feedback` | which answers take feedback |
| `TopicClassify`, `Threshold` | batch classification with its distribution, and the threshold search |
| `LockRegistry` | the per-session locks |

Each protocol is a state machine over its transactions: a function or relation `Next`, an invariant, and theorems about
`Run`, that is, about every interleaving. Where the program updates tables or objects in place, a class does so here, and
its methods are proved against those functions. Model calls, embeddings, clocks and humans are parameters with arbitrary
values. `dafny verify dfyconfig.toml` checks everything.

Some findings:

- The summary store does not itself reject an empty span; the runner's own test is what keeps the tiling
  (`Ledger.AppendSummaryKeepsWfIff`, `Ledger.EmptySpanBreaksTiling`).
- The summary projection does not pay for its separators. It may exceed its budget by half a token for each
  (`TokenBudget.ProjectionBoundIsTight`), and keeps it for all segments exactly when the budget has a token for each of
  the n segments and leaves at least n / 2 over after the equal split (`TokenBudget.ProjectionKeepsBudgetIff`).
- A producer cancelled between its commit and its notification leaves its question waiting until something else wakes the
  worker (`Wakeup.CancelledProducerLosesTheWakeup`); these are the only questions lost so (`Wakeup.NoLostWakeup`).
- A reset that stops between its two deletions leaves done rows without vectors, which ingestion reports and cannot
  repair; the next reset does (`Ingest.HalfResetIff`, `Ingest.HalfResetLosesVectors`,
  `Ingest.KnowledgeStore.ResetStopThenReset`).
- The in-memory store's turn boundaries are the database's only for histories without loose rows
  (`MemoryStore.BoundsAgreeIff`).
- In an FAQ, text under the title or another top-level heading with no question after it is dropped
  (`Chunking.FaqLosesText`); an FAQ that is chunked keeps all its text exactly when none stands there
  (`Chunking.ChunkDocument`, `Chunking.LosesIff`).
- A tool row of an older ledger directly behind a proposed anchor would make the database refuse it
  (`ContextLayers.DegradeIsAcceptedIff`, `ContextLayers.ToolRowRefusesTheCut`); turns are stored without tool rows today.

## Model

| member | source | states |
|---|---|---|
| `Messages.ValidateTurn` | app/sessions.py:103-124 | accepts a turn exactly when it is a user row with text, tool-step rows with at most the allowed number of well-formed call ids, and a final assistant row with text |
| `Ledger.TilesBounds` | app/store_db.py:268-277 | a tiling numbers its segments 1..n, each starts where the one before ends, and the first starts at 0 |
| `Ledger.InsertRowsKeepsWf` | app/store_db.py:88-130 | inserting rows keeps the ledger invariant, in every conversation |
| `Ledger.MoveLayer1KeepsWf` | app/store_db.py:209-232 | moving the layer-1 anchor, accepted or not, keeps the ledger invariant |
| `Ledger.AppendSummaryKeepsWfIff` | app/store_db.py:254-279 | an applied append keeps the tiling exactly when its span is not empty, which the compare-and-set itself does not check |
| `Ledger.EmptySpanBreaksTiling` | app/store_db.py:254-279 | a ledger in which an append of an empty span is applied and breaks the tiling |
| `Ledger.SpanIsStable` | app/store_db.py:237-247 | a span below the next id reads the same after any later insert |
| `Ledger.SpanSplits` | app/store_db.py:237-247 | the span (a, c] is the span (a, b] followed by the span (b, c] |
| `Ledger.TranscriptSplits` | app/services/summarizer.py:46-53 | so are the non-empty rows a summary is made from |
| `Ledger.SpanSpec` | app/store_db.py:237-247 | the span is exactly the user and assistant rows of its range, each once, by id |
| `Ledger.WithTextSpec` | app/services/summarizer.py:46-50 | what of it is summarised is exactly what has text, in the same order |
| `Ledger.NextRoleSpec` | app/store_db.py:225-228 | the role the boundary test looks at is that of the first later row of the same conversation |
| `Summaries.OnlyTheAnchorRefuses` | app/services/summarizer.py:63-67 | the write of a running summary task is refused only because another task moved the summary anchor |
| `Summaries.StepKeepsInv` | app/services/summarizer.py:38-70 | every step of every task, commit and anchor move keeps the summary invariant |
| `Summaries.RunKeepsInv` | app/services/summarizer.py:22-70 | so does every interleaving of any number of tasks |
| `Summaries.RunMovesForward` | app/store_db.py:209-279 | along every run both anchors only move forward, and rows, segments and their sources are only appended to |
| `Summaries.SegmentsCover` | app/store_db.py:268-277 | the sources of tiling segments, put together, are the transcript of the whole covered range |
| `Summaries.SummariesCoverTheLedger` | app/services/summarizer.py:38-70 | in every interleaving the segments are numbered 1..n and tile (0, summary_upto], summary_upto never overtakes layer1_from, and what the segments were made from is exactly the transcript up to the anchor: nothing lost, nothing summarised twice |
| `Summaries.TaskSummarises` | app/services/summarizer.py:38-70 | progress: a task that is read, fetched and answered with the summary anchor still where it was ends with the summaries reaching the layer-1 anchor it read; its one new segment covers exactly that span and says the stripped reply cut to the limit; a span without text ends with nothing appended |
| `Summaries.TurnEndsAtABoundary` | app/store_db.py:209-232 | in a new conversation the cut behind its first turn is accepted |
| `Summaries.CutGivesWork` | app/graph/nodes.py:604-620 | after which a spawned task has everything up to the cut to summarise |
| `Summaries.TurnHasText` | app/services/summarizer.py:46-53 | and that is never without text |
| `Store.DbSessionStore.AppendUserMessage` | app/store_db.py:81-92 | adds one user row under the next id, or refuses an over-long one and changes nothing |
| `Store.DbSessionStore.CommitTurn` | app/store_db.py:102-131 | inserts the rows of a valid turn, without the user row already stored, and returns all their ids in order |
| `Store.DbSessionStore.NextRoleAfter` | app/store_db.py:225-227 | the scan returns the role the specification names |
| `Store.DbSessionStore.MoveLayer1From` | app/store_db.py:209-232 | moves the anchor exactly when the caller owns the conversation, the id is later, is one of its rows and stands before a user row or the end |
| `Store.DbSessionStore.FetchSpanTexts` | app/store_db.py:237-247 | returns the user and assistant rows of the span, by id |
| `Store.DbSessionStore.AppendSummary` | app/store_db.py:254-279 | appends the next segment and the new projection by compare-and-set on the anchor, or reports why not and changes nothing |
| `Store.SummaryRunner.MaybeTrigger` | app/services/summarizer.py:22-28 | starts a task only if this runner has no live one for the conversation |
| `Store.SummaryRunner.ReadAnchors` | app/services/summarizer.py:40-45 | takes exactly the span from the summary anchor to the layer-1 anchor when it is not empty and the caller owns the conversation, and ends otherwise |
| `Store.SummaryRunner.FetchRows` | app/services/summarizer.py:46-50 | keeps the non-empty rows of that span, or ends without any |
| `Store.SummaryRunner.Respond` | app/services/summarizer.py:58-67 | clips the reply and appends it for the span that was read |
| `ContextLayers.EffectiveIds` | app/services/context_layers.py:43-51 | a message without a stamp gets the last stamp before it |
| `ContextLayers.EffectiveIdsGrow` | app/services/context_layers.py:43-51 | in a history with growing stamps effective ids never fall, and rise at every stamped message |
| `ContextLayers.BuildLayers` | app/services/context_layers.py:65-79 | splits the history into layer 2 and layer 1 by effective id and estimates layer 1 |
| `ContextLayers.MessageCost` | app/services/token_budget.py:26-32 | a message costs the estimate of its text and four tokens, and that of its calls on top |
| `ContextLayers.LayersPartition` | app/services/context_layers.py:65-72 | for anchors in order the summarised part, layer 2 and layer 1 are three consecutive stretches that make up the history |
| `ContextLayers.KeepIsLongest` | app/services/context_layers.py:152-154 | what is kept is empty or fits and begins with a user message, and no longer suffix does both |
| `ContextLayers.EvaluateDegrade` | app/services/context_layers.py:145-164 | computes the cut that the specification names |
| `ContextLayers.DegradeCut` | app/services/context_layers.py:145-164 | no cut exactly when layer 1 is empty or fits; otherwise the anchor is strictly later and what stays above it is exactly the longest fitting suffix that begins with a user message, or nothing |
| `ContextLayers.ToolResultsStayWithTheirCalls` | app/services/context_layers.py:43-51 | for every anchor a tool result falls on the side of the message whose calls it answers |
| `ContextLayers.CutFits` | app/services/context_layers.py:145-164 | what stays above a new anchor fits the budget |
| `ContextLayers.NextViewFits` | app/services/context_layers.py:65-79 | so layer 1 of the next view fits, wherever the summary anchor is |
| `ContextLayers.DegradeIsAcceptedIff` | app/store_db.py:209-232 | when the ledger stands behind the history the database boundary test accepts the proposed anchor exactly when no tool row stands directly behind it |
| `ContextLayers.ToolRowRefusesTheCut` | app/store_db.py:225-229 | a ledger with such a tool row, and a history whose cut it refuses |
| `ContextLayers.DegradeIsAccepted` | app/store_db.py:209-232 | so it is accepted in every ledger without tool rows, and in those where each tool row is followed by another or by the assistant row that used it |
| `ContextLayers.ReconcileCheckpointIds` | app/services/context_layers.py:99-125 | accepts exactly the alignments it may, and then stamps every user and assistant message with the record in its place |
| `ContextLayers.AlignmentIsUnique` | app/services/context_layers.py:107-118 | an accepted alignment pairs equal keys only in the same place |
| `Restamping.RestampIsBehind` | app/services/context_layers.py:107-118 | a checkpoint re-stamped with the records of its conversation has growing stamps and its ledger behind it, tool rows or not, so the guarantees of the cut hold for it |
| `History.StampAt` | app/graph/nodes.py:593-598 | each stored message of a turn gets the id of its own row, tool answers get none |
| `History.StampKeepsMessages` | app/graph/nodes.py:593-604 | stamping leaves every message its kind, text and call id |
| `History.StampTurn` | app/graph/nodes.py:593-598 | the index-mapped loop computes exactly those stamps |
| `History.StampExtends` | app/graph/nodes.py:593-604 | a stamped turn behind a well-stamped history gives a well-stamped history |
| `History.BehindMoreRows` | app/store_db.py:81-131 | rows of other conversations, lone user rows and turns the history never got leave the ledger behind the history |
| `History.BehindTurn` | app/graph/nodes.py:593-604 | taking in a committed turn, with all its rows stamped, does too |
| `History.StepKeepsInv` | app/graph/nodes.py:569-604 | preparing, finishing, abandoning a turn, losing its checkpoint, and everything other conversations and the anchors do keep the invariant |
| `History.FinishedTurnIsRecorded` | app/graph/nodes.py:569-604 | a question and its finished turn leave the rows of the turn behind all others, in order, and its messages behind the history, and nothing else changes |
| `History.RecordedStamps` | app/graph/nodes.py:593-604 | each of those messages has the id of the very row it was stored as |
| `History.EmptyHistoryInv` | app/graph/nodes.py:153-165 | a conversation the graph knows nothing of, whatever its ledger holds, satisfies the invariant, a new one among them |
| `History.RestampedInv` | app/graph/nodes.py:156-165 | so does an old checkpoint that could be aligned with its ledger |
| `History.CutIsNeverRefused` | app/graph/nodes.py:604-612 | along every run of a conversation from there, whenever the cut chooser proposes an anchor the database accepts it and moves there |
| `TokenBudget.EstimateIsQuartersRoundedUp` | app/services/token_budget.py:18-23 | the estimate is an additive count of quarter tokens, rounded up |
| `TokenBudget.EstimateOfConcat` | app/services/token_budget.py:18-23 | joining two texts never costs more than both, nor less than either |
| `TokenBudget.EstimateOfPrefix` | app/services/token_budget.py:18-23 | a longer prefix never costs less, which the binary search relies on |
| `TokenBudget.TruncateToTokens` | app/services/token_budget.py:39-52 | the binary search finds the specified prefix |
| `TokenBudget.TruncateIsLongestPrefix` | app/services/token_budget.py:39-52 | which fits the budget, and every longer prefix does not |
| `TokenBudget.ToolResultFitsIff` | app/services/token_budget.py:55-58 | the capped result fits exactly when the text already did or the limit has room for the mark, which costs four tokens |
| `TokenBudget.ToolResultKeepsLongest` | app/services/token_budget.py:55-58 | a result that fits is untouched; of any other the longest prefix stays that leaves four tokens for the mark |
| `TokenBudget.TruncateToolResult` | app/services/token_budget.py:55-58 | computes the capped text |
| `TokenBudget.ToolResultIsIdempotent` | app/tools/executor.py:211-215 | capping twice, as the executor does, is capping once, for every limit |
| `TokenBudget.BuildSummaryProjection` | app/services/token_budget.py:61-80 | computes the projection |
| `TokenBudget.PieceFitsQuota` | app/services/token_budget.py:71-79 | a segment, whole or shortened, costs at most its quota when the quota is at least the ellipsis |
| `TokenBudget.ShortenedPartsDoNotOverlap` | app/services/token_budget.py:75-79 | head and tail of a shortened segment are a prefix and a suffix that do not overlap |
| `TokenBudget.ShortenedHeadIsLongest` | app/services/token_budget.py:74-79 | the head is the longest prefix within two thirds of the quota less the ellipsis |
| `TokenBudget.ShortenedTailIsLongest` | app/services/token_budget.py:76-79 | the tail is a suffix within what the head leaves, and no longer one fits |
| `TokenBudget.JoinOfConcat` | app/services/token_budget.py:80 | joining keeps the order of segments, with one separator between neighbours |
| `TokenBudget.ProjectionKeepsEverySegment` | app/services/token_budget.py:61-80 | segments that fit together are joined as they are; otherwise every segment is in the projection, in order: untouched when it is within its equal share, else whole or as head, ellipsis and tail |
| `TokenBudget.ProjectionBound` | app/services/token_budget.py:61-80 | for n segments and a budget of at least n the projection costs at most the budget and half a token per separator, rounded up |
| `TokenBudget.ProjectionBoundIsTight` | app/services/token_budget.py:69-80 | for every number of segments and every quota the bound is attained, so from two segments on the budget itself can be exceeded |
| `TokenBudget.ProjectionKeepsBudgetIff` | app/services/token_budget.py:61-80 | for n segments, whatever they say, the projection stays within a positive budget exactly when the budget is at least n and leaves at least n / 2 tokens over after the equal split |
| `AgentTurn.BatchViolation` | app/tools/executor.py:92-102 | reports exactly the batches with a write that is not the last call, which includes every batch with two writes |
| `AgentTurn.MarkInvalidBatch` | app/tools/executor.py:306-316 | answers every call of an illegal batch, in order, and runs none |
| `AgentTurn.AnswerCalls` | app/graph/agent_node.py:385-429 | answers the calls of a batch in call order: each with its own outcome until a knowledge gate fails, the rest with an error and without running; the write at the end is parked exactly when no gate has failed |
| `AgentTurn.FailedGateEndsTheTurn` | app/graph/agent_node.py:399-430 | the first knowledge query that fails, or finds nothing good enough, ends the turn with its fixed answer: what stands behind it is answered with errors and not run |
| `AgentTurn.PassedGatesGoOn` | app/graph/agent_node.py:385-430 | with all of them passed each call is answered with its own outcome and run unless it is a suggestion; a write at the end is parked, and otherwise the loop goes on |
| `AgentTurn.RanReads` | app/graph/agent_node.py:399-414 | no write is ever among the calls that run |
| `AgentTurn.RefuseBatch` | app/graph/agent_node.py:377-383 | an illegal batch joins the turn with an error answer for every call |
| `AgentTurn.RunBatch` | app/graph/agent_node.py:377-430 | an illegal batch runs nothing; a legal one runs exactly the calls in front of a failed gate and leaves the turn with every call answered, ended by the fixed answer of the failed gate, or waiting for its parked write alone |
| `AgentTurn.MainAgent` | app/graph/agent_node.py:264-430 | the exit in terms of the replies: the contexts begin with the entry and each follows from the one before by its reply and that reply's answers; the last reply consulted decides: its stripped text, a failed gate, a parked write or an abort for a listed cause; the budget answer comes exactly when the steps are used up or the reservation does not fit, the guard's abort exactly when a context is too long; every model call sees a fully answered prefix, exactly the calls of the consulted replies ran and no write among them, and spending is what was consulted |
| `AgentTurn.FinalAnswer` | app/graph/agent_node.py:357-375 | a reply without calls ends the turn with its stripped text; a blank one with the fixed answer, or an abort if that would be too long |
| `AgentTurn.ConfirmationCompletesTheRound` | app/graph/nodes.py:662-692 | confirming or cancelling gives the parked call exactly one answer and completes its round |
| `AgentTurn.RunTurn` | app/graph/nodes.py:658-692 | through any number of confirmations each entry begins with what the one before parked and the one answer to its write, and ends as its replies say; what reaches the log node is what the last entry ended with, has the form User (Assistant[c1..ck] Tool[c1]..Tool[ck])* Assistant with text, and its rows pass the ledger check |
| `AgentTurn.ToStored` | app/graph/nodes.py:523-535 | the rows are the messages without tool answers, each with the index of the message it was made from |
| `AgentTurn.RowKeepsItsMessage` | app/graph/nodes.py:523-535 | a row has the speaker, the text and the call ids of its message, NULL for an empty text or no calls |
| `AgentTurn.StoredIsValidIff` | app/sessions.py:103-124 | the ledger check accepts the rows of a complete turn exactly when no round made more calls than it allows |
| `AgentTurn.FewCallsFit` | app/graph/agent_node.py:435-441 | which the batch contract guarantees |
| `TicketWrite.StepKeepsInv` | app/tools/executor.py:218-294 | lookups, spawned writes, commits, lost acknowledgements, timeouts, late landings and tickets made elsewhere keep the one-to-one match |
| `TicketWrite.RunGrows` | app/tools/builtin/ticket.py:25-38 | tickets and idempotency rows once written stay as they are |
| `TicketWrite.ExactlyOnce` | app/tools/executor.py:218-284 | in every run a call has at most one ticket, tickets and idempotency rows match one to one, and an execution with another digest neither succeeds nor writes |
| `TicketWrite.SuccessesAgree` | app/tools/executor.py:218-284 | any two successful executions of one call report the same ticket |
| `TicketWrite.RecordedKeyIsAnswered` | app/tools/executor.py:229-240 | once a key is recorded every later execution is answered from the record, with its number or a conflict, and writes nothing |
| `TicketWrite.WriteLands` | app/tools/builtin/ticket.py:25-38 | a write that finds neither its key nor its number inserts exactly its ticket and its row, acknowledged or not |
| `TicketWrite.AcknowledgedWriteSucceeds` | app/tools/executor.py:241-250 | acknowledged and delivered in time it is answered with its own number, whatever others do in between |
| `TicketWrite.FirstExecutionSucceeds` | app/tools/executor.py:229-250 | so the first execution of a call, looked up, written and delivered in time, succeeds with exactly the number it inserted, in every interleaving |
| `TicketWrite.LateWriteIsReported` | app/tools/executor.py:229-257 | a write that lands after any reply is what every later execution with the same arguments reports, without a write of its own |
| `TicketWrite.FailedWriteIsReported` | app/tools/executor.py:268-272 | a write that fails before anything is inserted is reported as an error; a number taken elsewhere makes its write a conflict and inserts nothing |
| `TicketWrite.TicketDesk.IdemLookup` | app/tools/executor.py:274-284 | returns the recorded number, a conflict for another digest, or nothing |
| `TicketWrite.TicketDesk.CreateTicket` | app/tools/builtin/ticket.py:25-38 | inserts the ticket and the idempotency row together or neither |
| `TicketWrite.TicketDesk.Launch` | app/tools/executor.py:229-244 | a recorded key is answered at once with its number or a conflict; only a new one spawns a write and waits |
| `TicketWrite.TicketDesk.Expire` | app/tools/executor.py:251-257 | a wait that is over is answered as unknown, and the write goes on |
| `TicketWrite.TicketDesk.Finish` | app/tools/executor.py:245-272 | a committed write succeeds with its number; a rejected insert succeeds with the recorded number exactly when the key is recorded with this digest and is a conflict otherwise; an error is reported as one; nothing else changes |
| `ReviewQueue.StepKeepsInv` | app/services/flywheel.py:86-133 | every transaction on the two tables keeps the counts |
| `ReviewQueue.StepKeeps` | app/services/review_service.py:84-107 | one transaction moves a status at most one step 待审→写入中→通过 or 待审→驳回, new reviews begin 待审; the count is frozen once a review is closed, a frozen answer and a match stay for ever |
| `ReviewQueue.LifeOfAQuestion` | app/services/flywheel.py:86-133 | from the pool to publication: each transaction on one question and its review with exactly its change to the two tables |
| `ReviewQueue.GivenUpAndPutBack` | app/services/review_service.py:96-107 | a question given up and put back is as it was when it was pooled |
| `ReviewQueue.QueueConservation` | app/services/flywheel.py:86-133 | in every interleaving each review counts exactly the questions matched to it, a question is processed exactly when matched, pending ones have attempts left, and nothing is counted twice |
| `Flywheel.FlywheelDb.FetchDue` | app/services/flywheel.py:68-75 | returns the first due pending questions by id: at most a batch, none left out in front of the last one taken, and all of them when the batch is not full |
| `Flywheel.FlywheelDb.CommitMatch` | app/services/flywheel.py:86-112 | merges into an open review, creates one, skips a question already handled, or reports a closed target; each with exactly its changes to the two tables |
| `Flywheel.FlywheelDb.MarkFailure` | app/services/flywheel.py:115-133 | spends one attempt, gives up exactly at the maximum and sets the retry time otherwise; skips a question already handled |
| `Flywheel.UnstandardisedSpendsAnAttempt` | app/services/flywheel.py:139-150 | a question whose standardisation fails spends an attempt and creates nothing, even with an empty review queue |
| `Flywheel.NewQuestionsOpenAReview` | app/services/flywheel.py:153-168 | a question judged new, or shown no open review, is matched to a new open review with its standardised text and count 1, and no other review changes but those closed meanwhile |
| `Flywheel.HitsAreCounted` | app/services/flywheel.py:86-112 | a hit on a shown review that is still open counts the question there and nowhere else |
| `Flywheel.BadJudgementsFail` | app/services/flywheel.py:160-168 | an error, an unusable reply or a review that was not shown spends an attempt and matches nothing |
| `Flywheel.SecondTryDecides` | app/services/flywheel.py:198-211 | when the review was closed meanwhile the second try decides as a first one would, and there is no third |
| `Flywheel.FlywheelDb.Handle` | app/services/flywheel.py:190-213 | a question ends up matched or spends an attempt, as its judgements say, and the figures of the pass are booked accordingly |
| `Flywheel.FlywheelDb.ProcessPending` | app/services/flywheel.py:182-213 | the drain is a sequence of rounds, each of the batch that was due when it began, with every question handled as its judgements say; it ends, by the attempts left and without assumptions on the clock; on return no due pending question is left, and the figures of the pass are the new reviews, the processed and given-up questions and the attempts spent |
| `Wakeup.RunKeepsInv` | app/services/flywheel.py:244-263 | after a clean pass the waiting questions are those that came since the queue was drained, and while the event is unset each of them has a producer that still owes its notification or lost one |
| `Wakeup.NoLostWakeup` | app/services/flywheel.py:244-273 | from whatever tables a process starts with: when the worker sleeps after a clean pass with its event unset and no producer between commit and notify, a question waits exactly when it came since the last drain and its producer was cancelled in that window; without a timeout these are all the pending ones |
| `Wakeup.NoCancelNoLostWakeup` | app/services/flywheel.py:244-263 | so in a run in which no producer is cancelled nothing waits then, and nothing is pending without a timeout |
| `Wakeup.WaitingIsPickedUp` | app/services/flywheel.py:244-263 | progress: what waits while the worker rests and is not lost is picked up by the event that is set or by the notification its producer still owes |
| `Wakeup.NothingSleepsForEver` | app/services/flywheel.py:240-263 | the button wakes every sleeping worker, and a delayed retry always has a timeout to wait for |
| `Wakeup.PutBackWaits` | app/services/review_service.py:96-107 | a question put back waits again, and its producer owes a notification |
| `Wakeup.PassesEndAsleep` | app/services/flywheel.py:244-263 | a drained pass sleeps without a timeout exactly when no retry is due later; one that raised sleeps with one |
| `Wakeup.CancelledProducerLosesTheWakeup` | app/graph/nodes.py:582-592 | that window is real: a producer cancelled between commit and notify leaves a question waiting and the worker asleep |
| `KnowledgeRows.InsertKeepsSound` | app/knowledge/ingest.py:99-113 | inserting a fresh source, linked, keeps both stores sound |
| `KnowledgeRows.MarkKeepsSound` | app/knowledge/ingest.py:62-66 | marking rows done keeps them sound |
| `KnowledgeRows.WithoutDocsKeepsSound` | app/services/kb_admin.py:377-387 | deleting the document rows after their vectors keeps them sound |
| `Ingest.SoundPointersOk` | app/knowledge/ingest.py:122-137 | in sound stores the pointer check passes |
| `Ingest.SortSorts` | app/knowledge/ingest.py:128-132 | the check reads all rows of a document, by their index |
| `Ingest.ConsistentIff` | app/knowledge/ingest.py:170-183 | with nothing pending, verification passes exactly when every done row has its vector |
| `Ingest.KnowledgeStore.FetchPending` | app/knowledge/ingest.py:43-49 | fetches the pending ids among the first rows, at most a batch, all of them when the batch is not full, and none exactly when nothing is pending |
| `Ingest.KnowledgeStore.VectorizeBatch` | app/knowledge/ingest.py:52-70 | the vectors of exactly this batch first, its marks second; a stop in between leaves the batch pending and both stores sound |
| `Ingest.KnowledgeStore.VectorizePending` | app/knowledge/ingest.py:39-70 | ends; stopped anywhere it only turned pending rows into done rows with vectors; failure-free nothing is left pending |
| `Ingest.KnowledgeStore.LoadDocument` | app/knowledge/ingest.py:80-119 | loads a new or unchanged document in one transaction and refuses a changed or unparseable one without a trace |
| `Ingest.KnowledgeStore.PointerError` | app/knowledge/ingest.py:122-137 | reports a broken chain exactly when some document has one |
| `Ingest.KnowledgeStore.Verify` | app/knowledge/ingest.py:170-183 | passes exactly when nothing is pending, the chains are whole and the two id sets are equal |
| `Ingest.KnowledgeStore.LoadAll` | app/knowledge/ingest.py:208-209 | succeeds, failure-free, exactly when every file is new or unchanged, and touches no other source |
| `Ingest.KnowledgeStore.RunIngest` | app/knowledge/ingest.py:186-216 | stopped after any commit or upsert the stores stay sound; it fails only by such a stop or for the causes listed: no files, a changed or unparseable one, or a done row without its vector; what was pending at first is done before the files are loaded |
| `Ingest.KnowledgeStore.StopThenRerun` | app/knowledge/ingest.py:186-216 | a run stopped anywhere, then a run that is not, ends verified with every file loaded |
| `Ingest.HalfResetIff` | app/services/kb_admin.py:373-387 | a reset stopped between its two deletions keeps "done implies vector" exactly when no document row was done and every other done row had its vector |
| `Ingest.HalfResetLosesVectors` | app/services/kb_admin.py:373-387 | a consistent store for which it does not |
| `Ingest.KnowledgeStore.ResetKb` | app/services/kb_admin.py:367-409 | touches no other source and leaves no rows of documents that are gone; failure-free it ends verified exactly when there are files, all can be chunked, and done rows outside the documents had their vectors |
| `Ingest.KnowledgeStore.ResetStopThenReset` | app/services/kb_admin.py:367-409 | whatever a stopped reset left behind, the next reset repairs: exactly the given documents, verified |
| `Publication.VectorizedIsKept` | app/knowledge/ingest.py:39-70 | vectorizing leaves every review's chunks in place |
| `Publication.InsertDocKeepsInv` | app/knowledge/ingest.py:80-119 | so does loading a document |
| `Publication.DeleteDocVectorsKeepsInv` | app/services/kb_admin.py:373-376 | so does the first deletion of a reset |
| `Publication.DeleteDocRowsKeepsInv` | app/services/kb_admin.py:377-391 | and the second |
| `Publication.FreezeKeepsInv` | app/services/review_service.py:187-209 | the freezing transaction files the review's chunks under its recorded ids |
| `Publication.OutcomeSpec` | app/services/review_service.py:187-209 | when each outcome of a freeze comes about; a retry of a review in 写入中 goes on with the frozen answer, sent along again or not |
| `Publication.FreezeSpec` | app/services/review_service.py:137-209 | what a freeze leaves: the answer it froze or had frozen, the chunks that were there or the linked cuts of question and answer, their ids recorded, and nothing else |
| `Publication.ReplayFacts` | app/services/review_service.py:245-251 | the replay transaction gives every frozen review its chunks, under fresh ids that it records |
| `Publication.PublishKeepsInv` | app/services/review_service.py:216-229 | passing a review with nothing pending keeps the invariant |
| `Publication.ClearKeepsInv` | app/services/kb_admin.py:457-469 | so does clearing the tables of a dropped index |
| `Publication.ResetRuns` | app/services/kb_admin.py:367-391 | the two deletions of a reset, in order, and what a stop leaves |
| `Publication.RebuildRuns` | app/services/kb_admin.py:472-489 | a rebuild empties both stores before it takes anything in; a stop leaves REBUILD_REQUIRED |
| `Publication.QueueLeavesFrozen` | app/services/flywheel.py:86-133 | queue transactions neither freeze nor publish and leave frozen reviews alone |
| `Publication.StepKeepsInv` | app/services/review_service.py:176-267 | every step of approval, reset, rebuild with replay, other knowledge jobs and the queue keeps the publication invariant |
| `Publication.StepKeeps` | app/services/review_service.py:84-267 | each step of approval, reset, rebuild and the queue moves every status at most one step along these arrows and changes no closed count, no frozen answer and no match |
| `Publication.PublicationSafety` | app/services/review_service.py:84-267 | in every interleaving statuses only move 待审→写入中→通过 or 待审→驳回, a frozen answer never changes, and review chunks exist only for 写入中 and 通过 |
| `Publication.ReadyMeansServed` | app/services/kb_admin.py:472-505 | whenever the state is READY every 通过 review's chunks are its question and answer cut up, all done, in the vector store and equal to its recorded ids |
| `ReviewService.InvCanReplay` | app/services/review_service.py:245-250 | replay never meets a frozen review it cannot cut |
| `ReviewService.ReviewDesk.Reject` | app/services/review_service.py:84-93 | rejects exactly the open reviews and changes nothing else |
| `ReviewService.ReviewDesk.RetryFailedQuestion` | app/services/review_service.py:96-107 | puts exactly the failed questions back, with all their attempts, and changes nothing else |
| `ReviewService.ReviewDesk.FileChunks` | app/services/review_service.py:137-161 | reuses the review's chunks or inserts them, linked and pending |
| `ReviewService.ReviewDesk.FreezeChunks` | app/services/review_service.py:187-209 | is the freezing step, or refuses for the reason the source gives and changes nothing |
| `ReviewService.ReviewDesk.VectorizeAndPass` | app/services/review_service.py:210-229 | passes the review when nothing failed, and otherwise leaves it frozen with its chunks |
| `ReviewService.ReviewDesk.Approve` | app/services/review_service.py:176-229 | says by its answer what it did to the tables: only review r changes, and the knowledge base gets its chunks and vectors for what was pending; a failed write leaves a frozen review the same call can finish |
| `ReviewService.ReviewDesk.ReplayReviews` | app/services/review_service.py:238-251 | is the replay step and changes nothing but the recorded chunk ids |
| `ReviewService.ReviewDesk.ConvergeOne` | app/services/review_service.py:254-267 | approves a frozen review with nothing pending |
| `ReviewService.ReviewDesk.ConvergeAll` | app/services/review_service.py:254-267 | leaves no review in 写入中 |
| `ReviewService.ReviewDesk.DropAndIngest` | app/services/kb_admin.py:484-489 | when it succeeds the store holds exactly the given documents, verified; failure-free it does exactly when there are files that can all be chunked |
| `ReviewService.ReviewDesk.RebuildIndex` | app/services/kb_admin.py:472-505 | a rebuild that succeeds is READY with exactly the given documents loaded, nothing of other documents or without a source, everything done and in the vector store, and no review in 写入中; failure-free it succeeds; one that stops after its preflight leaves REBUILD_REQUIRED; counts and questions are untouched |
| `ReviewService.ReviewDesk.ResetKb` | app/services/kb_admin.py:367-409 | keeps the publication invariant and every source that is no document, and leaves exactly the given documents; in a READY process only the documents themselves can make a failure-free reset fail |
| `ChunkText.JoinSplit` | app/knowledge/chunking.py:92 | splitting into lines and joining is the identity |
| `ChunkText.SplitJoin` | app/knowledge/chunking.py:92 | so is joining lines and splitting again |
| `ChunkText.SplitIsSentences` | app/knowledge/chunking.py:131-132 | the sentences spell the text, none is empty, and they meet exactly where a sentence ends |
| `ChunkText.SentenceSuffix` | app/knowledge/chunking.py:175-186 | returns the longest whole-sentence suffix within the budget less leading line breaks, and nothing if the text does not end with a sentence |
| `ChunkText.HardCutSpells` | app/knowledge/chunking.py:135-136 | the pieces of a hard cut spell the text |
| `ChunkText.HardCutFacts` | app/knowledge/chunking.py:135-136 | all are full but the last |
| `ChunkText.ParaUnits` | app/knowledge/chunking.py:139-151 | computes the units of a paragraph |
| `ChunkText.UnitsFacts` | app/knowledge/chunking.py:139-151 | which spell it, none empty and none too long; the fallback for an empty list is never taken |
| `ChunkText.TableChunks` | app/knowledge/chunking.py:154-172 | reports the first table error with its line, or the pieces the specification names |
| `ChunkPacking.PiecesFit` | app/knowledge/chunking.py:161-172 | every piece of a table begins with the header and fits |
| `ChunkPacking.PiecesSpell` | app/knowledge/chunking.py:161-172 | the first piece in full and the others behind their header spell the table |
| `ChunkPacking.Packer.CloseText` | app/knowledge/chunking.py:198-204 | closes the open chunk and from then on leaves room for the overlap |
| `ChunkPacking.Packer.AddUnit` | app/knowledge/chunking.py:213-220 | puts a unit behind the open chunk if it fits and opens a new one otherwise |
| `ChunkPacking.PackBlocks` | app/knowledge/chunking.py:206-221 | cuts the units and pieces, in order, into the groups that greedy filling gives, or reports the error of the first bad block |
| `ChunkPacking.AddOverlaps` | app/knowledge/chunking.py:223-232 | puts the overlap of the answer before in front of a text chunk behind a text chunk exactly when it is not empty and the answer still fits |
| `ChunkPacking.EmittedSpell` | app/knowledge/chunking.py:189-233 | the answers without what they repeat spell the groups |
| `ChunkPacking.EmittedCutsOk` | app/knowledge/chunking.py:223-232 | every answer is within the limit and repeats only the longest whole-sentence overlap of the answer before, or the header of its table |
| `ChunkPacking.EmitAnswers` | app/knowledge/chunking.py:189-233 | both together, for the blocks of a section |
| `Chunking.SectionParser.Feed` | app/knowledge/chunking.py:92-115 | one line joins a paragraph, a table or opens a section; no text is lost and paths follow the headings |
| `Chunking.MergePreamble` | app/knowledge/chunking.py:120-127 | the text before the first heading is put in front of the first section that has text, and no other section changes; if none has text it gets a section under the title |
| `Chunking.ParseSections` | app/knowledge/chunking.py:66-128 | each section stands under its heading path and has exactly the text found under its heading, the front text apart; put together they spell the body without its split headings; without a title it fails, and without table lines there are no tables |
| `Chunking.DocumentChunker.AddSection` | app/knowledge/chunking.py:245-267 | adds the answers of a section, with those waiting in an FAQ, or reports the first bad block of the document |
| `Chunking.LosesIff` | app/knowledge/chunking.py:245-256 | a document loses text exactly when it is an FAQ with text under a top-level heading behind the last question, read off its lines |
| `Chunking.StretchesAreFiled` | app/knowledge/chunking.py:241-267 | the stretches of a document are filed as its lines say: stretch k under the heading path of section k, spelling the text found there |
| `Chunking.JoinPathOfConcat` | app/knowledge/chunking.py:255-264 | a path names its headings from the outside in |
| `Chunking.ChunkDocument` | app/knowledge/chunking.py:236-270 | chunks, answers and cuts split into one stretch per section, in order: each chunk of stretch k has the path, question and category of section k, and the stretch without what it repeats spells the text found under that heading, in an FAQ with the text that waited in front of it, and nothing under a heading that only waits; for policies and manuals all answers together spell the body without its split headings; for an FAQ they spell all of it but the text that waits for a question at the end, and so the body exactly when no text stands there; every answer is within the limit; a document is refused as empty only if nothing else is in it, and without table lines for no other reason than that or a missing title |
| `Chunking.FaqLosesText` | app/knowledge/chunking.py:247-249 | FAQs that are chunked and lose text |
| `MemoryStore.TrimCutIsFirst` | app/sessions.py:138-144 | the cut is the first place where a complete turn begins behind another one |
| `MemoryStore.TrimStep` | app/sessions.py:199-204 | each round of trimming removes something and cuts at a whole turn |
| `MemoryStore.NewestTurnSurvives` | app/sessions.py:138-144 | the newest complete turn is never trimmed |
| `MemoryStore.TrimEnds` | app/sessions.py:199-204 | trimming ends within the limit or with fewer than two complete turns |
| `MemoryStore.InMemorySessionStore.AppendUserMessage` | app/sessions.py:177-184 | adds one row and one id |
| `MemoryStore.InMemorySessionStore.Trim` | app/sessions.py:199-204 | the loop ends at the earliest cut that fits, or the last one there is, with rows and ids cut alike |
| `MemoryStore.InMemorySessionStore.CommitTurn` | app/sessions.py:186-212 | rows and ids stay parallel and ids strictly increase; an invalid turn changes nothing |
| `MemoryStore.StartsBeforeNewRows` | app/sessions.py:195-204 | no turn begins inside the new rows, so trimming never reaches rows without ids |
| `MemoryStore.InMemorySessionStore.TurnBoundaryIds` | app/sessions.py:242-249 | computes the ids at the counted positions |
| `MemoryStore.InMemorySessionStore.MoveLayer1From` | app/sessions.py:251-263 | accepts exactly the later ids at a boundary by this store's rule |
| `MemoryStore.BoundsAgreeIff` | app/sessions.py:242-249 | the rule of this store and the rule of the database give the same boundaries exactly for histories without rows before the first user row and without unanswered user rows |
| `MemoryStore.LooseRowShiftsBounds` | app/sessions.py:127-135 | one unanswered question in front shifts this store's boundary into the middle of the turn |
| `MemoryStore.DbBoundsAreLedgers` | app/store_db.py:225-229 | the positions compared with are those the database accepts |
| `Feedback.ValidateTurn` | app/services/feedback.py:17-48 | accepts a row exactly when it is a plain assistant row with text, has a question before it and no later such row before the next question; and names that question |
| `Feedback.AnnotateMessages` | app/services/feedback.py:80-100 | marks exactly the last plain assistant row between neighbouring user rows |
| `Feedback.AgreeIff` | app/services/feedback.py:80-107 | marks and checks agree exactly when every marked row has text and a question before it |
| `Feedback.StepKeepsRegular` | app/store_db.py:81-131 | appending a user row and committing a turn keep every conversation so |
| `Feedback.MarksAgree` | app/services/feedback.py:17-48 | on every ledger these two can lead to, the list marks a row exactly when the check accepts it |
| `Feedback.BlankAnswerDisagrees` | app/services/feedback.py:25-27 | a blank answer, or one without a question, would break the agreement |
| `TopicClassify.DecodeIsLegal` | training/labels.py:49-58 | decoded labels are never empty, all known, and the catch-all stands alone |
| `TopicClassify.DecodeSpec` | training/labels.py:49-58 | the labels are exactly the names that score enough, in the order of the taxonomy; the catch-all stands in only when none does |
| `TopicClassify.GroupQuestions` | app/services/topic_classify.py:146-148 | groups the questions by turn, or singly, in order of appearance |
| `TopicClassify.SameGroupIff` | app/services/topic_classify.py:45-49 | two questions belong together exactly when they are of one turn, or are the same question without an anchor |
| `TopicClassify.TextIff` | app/services/topic_classify.py:85-93 | a group has a representative text exactly when some question in it says something |
| `TopicClassify.RepresentativeTextIs` | app/services/topic_classify.py:85-93 | and it is the first resolved question that says something, or only if none does the first raw one, stripped |
| `TopicClassify.ValidateBatch` | app/services/topic_classify.py:108-124 | accepts a response exactly when its version, its counts, its scores and its decoded labels are right |
| `TopicClassify.RepliesFailIff` | app/services/topic_classify.py:167-181 | a run of batches fails exactly when its first response is unreachable or wrong in version, counts, scores or labels, or the rest fails; otherwise the labels are taken over in order |
| `TopicClassify.SuccessDecides` | app/services/topic_classify.py:167-181 | with a service that may fail on any batch but labels each text by itself, every run that succeeds gives each text its own labels |
| `TopicClassify.BatchSizeIrrelevant` | app/services/topic_classify.py:167-181 | so two successful runs give the same result, whatever their batch sizes |
| `TopicClassify.WriteAllAt` | app/services/topic_classify.py:183-200 | a run writes the members of the groups it handled, one result per group, and nothing else |
| `TopicClassify.AfterRun` | app/services/topic_classify.py:136-204 | after a run the members of a group that needed work are current and all others are as before |
| `TopicClassify.RunDecidesEachGroup` | app/services/topic_classify.py:136-204 | every group that was taken on ends with the labels decided for its own text, whatever the batches were |
| `TopicClassify.EveryTextIsUpToDate` | app/services/topic_classify.py:136-204 | after a run every question of a group with a usable text has a legal result of the version and metadata of the run |
| `TopicClassify.SecondRunWritesNothing` | app/services/topic_classify.py:154-165 | an immediate second run finds nothing to do |
| `TopicClassify.RunKeepsTableOk` | app/services/topic_classify.py:183-200 | results stay stored for whole groups alike, and only for groups with a text |
| `TopicClassify.ArrivalKeepsTableOk` | app/services/topic_classify.py:45-49 | also when questions arrive |
| `TopicClassify.DistributionAfterRun` | app/services/topic_classify.py:215-246 | right after a run the distribution has no conflict and counts as classified exactly the groups with a usable text |
| `TopicClassify.GroupOkIff` | app/services/topic_classify.py:233-240 | a group counts as classified exactly when all its members have one legal result of one version |
| `TopicClassify.TopicJob.RunClassification` | app/services/topic_classify.py:127-204 | any failed batch leaves the table as it was; otherwise everything is written at once |
| `TopicClassify.TopicJob.GetDistribution` | app/services/topic_classify.py:215-261 | reports a conflict exactly when stored versions or metadata differ; counts each label once per group; a stale result counts nothing; shows higher counts first and equal ones as the taxonomy lists them |
| `Threshold.ThresholdCandidates` | evals/run_retrieval_compare.py:117-121 | the candidates are the observed scores, each once, ascending |
| `Threshold.SamplesSplit` | evals/run_retrieval_compare.py:119-120 | every sample is on exactly one of the two sides |
| `Threshold.SumsOfConcat` | evals/run_retrieval_compare.py:106-114 | the three sums are taken sample by sample |
| `Threshold.ScoreFalls` | evals/run_retrieval_compare.py:106-114 | a higher threshold passes fewer wrong cases, refuses more right ones and recalls less |
| `Threshold.ChooseStrategyThreshold` | evals/run_retrieval_compare.py:124-141 | with its three-part key the search returns the least observed score that meets the limit, and fails exactly when none does |
| `Threshold.ChoiceIsOptimal` | evals/run_retrieval_compare.py:124-141 | no real threshold that meets the limit has more recall, or as much recall and fewer refusals |
| `LockRegistry.StepKeepsInv` | app/services/chat_service.py:98-126 | entering, getting the lock, cancelled waiting and releasing keep the registry invariant |
| `LockRegistry.ReleaseIsLegal` | app/services/chat_service.py:116-119 | release unlocks the very lock its caller holds, which is locked |
| `LockRegistry.EnteringCounts` | app/services/chat_service.py:105-107 | who enters is counted and waits for the lock in the table |
| `LockRegistry.EnteredLock` | app/services/chat_service.py:105-106 | which is a new one exactly when nobody else uses the session |
| `LockRegistry.CancellingCounts` | app/services/chat_service.py:108-113 | who is cancelled while waiting is counted out and unlocks nothing |
| `LockRegistry.ReleaseHandsOver` | app/services/chat_service.py:116-126 | when the holder releases, any waiter of the session can have the very same lock next |
| `LockRegistry.UndisturbedTurn` | app/services/chat_service.py:105-126 | a turn that nobody disturbs leaves the registry as it was |
| `LockRegistry.RunKeepsInv` | app/services/chat_service.py:98-126 | the count is the number of holders and waiters, the entry exists exactly while it is positive, and all refer to the one lock in the table |
| `LockRegistry.MutualExclusion` | app/services/chat_service.py:105-114 | in every run a session has at most one holder, and everyone else on it waits for that holder's lock |
| `LockRegistry.NoLockIsLost` | app/services/chat_service.py:105-126 | a waiter can get the lock or some task holds it |
| `LockRegistry.NothingLeftBehind` | app/services/chat_service.py:121-126 | once every task has ended the registry is empty |
| `LockRegistry.SessionLockRegistry.Enter` | app/services/chat_service.py:105-107 | creates the entry if needed and counts the caller |
| `LockRegistry.SessionLockRegistry.Retire` | app/services/chat_service.py:121-126 | counts the caller out and removes the entry with its last user |
| `LockRegistry.SessionLockRegistry.Release` | app/services/chat_service.py:116-119 | unlocks the lock in the table and retires |
| `LockRegistry.PreparedTurn.ReleaseTurn` | app/services/chat_service.py:222-226 | releases the lock the first time and never again |

## Left out

- Models, embeddings, reranking, MCP, Langfuse and HTTP: a call is an arbitrary result or a failure.
- SQL, Milvus and LangGraph: a transaction, an upsert and an interrupt with its resume are atomic steps; `trim_messages`
  is taken to return the longest fitting suffix, cut back to its first user message.
- JSON, hashing and canonical JSON are abstract values and injective keys; text is a sequence of characters, and
  whitespace is the ASCII whitespace and the ideographic space.
- Floating point: scores, thresholds and rates are real numbers.
- The split of the model window into budgets (`compute_budget`, `measure_sys_tokens`) and `fit_face_to_budget`.
- What layer 2 looks like when rendered, and the estimates of rendered messages; the arguments of `suggest_options`,
  evidence texts, citations and stream events.
- How many characters of a question reach the reply streams; durations, time zones and clock skew.
- Front matter of documents, the key-clause flag of chunks, and equality of chunks beyond their text.
- The parsers of model output in the worker, which end in an arbitrary verdict here.
- Cancellation inside `prepare` between taking the lock and returning the turn.
- Mining, manual previews, the read-only listings, and the evaluation tooling beyond the threshold search.
- Preflight probes and the final smoke search of a rebuild are booleans given to `RebuildIndex`.
- Ids of reviews and pooled questions are positions in tables that only grow.
- ReviewService.ReviewDesk.Approve: runs as one call without queue transactions in between; those interleavings are in
  `Publication.PublicationSafety`, and a database error before the freeze commits is the unchanged state.
- Ingest.KnowledgeStore.LoadDocument: writing the pointers of an unchanged document again is the identity in sound stores and not a
  separate write.
- Store.SummaryRunner.MaybeTrigger: single flight holds per runner only, so tasks of several processes interleave in
  `Summaries.RunKeepsInv`.
- MemoryStore.InMemorySessionStore.CommitTurn: the low-confidence pool and the other per-session maps are not part of this model.
- Publication.ReadyMeansServed: the READY flag lives in memory, so it is stated for runs within one process that starts
  consistent.
- TopicClassify.TopicJob.GetDistribution: the time of classification is not modelled.
- Flywheel.FlywheelDb.ProcessPending: a database error while a batch is fetched or a failure is recorded ends the pass with
  an exception; such passes are `WorkerRaises` in `Wakeup`.
