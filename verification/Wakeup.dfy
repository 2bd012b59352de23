/** Waking the flywheel worker (app/services/flywheel.py, app/graph/nodes.py, app/services/feedback.py,
    app/routers/review.py): clear before scan, commit before notify. */
module Wakeup {
  import opened Basics
  import opened ReviewQueue

  // Deciding: the drain has returned and the next retry time is being read. A pass that raised sleeps with a timeout.
  datatype Worker = Clearing | Scanning | Deciding | Asleep(forever: bool, afterError: bool)

  // inflight: questions committed by a producer that has not notified yet, once for each such producer; recent:
  // questions pooled or put back since the worker last drained the queue; lost: those of them that had a producer
  // cancelled between commit and notify.
  datatype World = World(tables: Tables, event: bool, worker: Worker, inflight: multiset<nat>, recent: set<nat>,
                         lost: set<nat>)

  datatype Event =
    | WorkerClears
    | WorkerMatches(q: nat, normalized: string, match_: Option<nat>)
    | WorkerFails(q: nat, retryAt: int)
    | WorkerDrained(now: int)
    | WorkerSleeps
    | WorkerRaises
    | WorkerWakes
    | WorkerTimesOut
    | ProducerPools
    | ProducerRetries(q: nat)
    | ProducerNotifies(q: nat)
    | ProducerCancelled(q: nat)
    | RunNow
    | HumanRejects(r: nat)
    | HumanFreezes(r: nat, answer: string)
    | HumanPublishes(r: nat)

  // A question waiting for its first handling since it was pooled or put back.
  predicate Waiting(q: Question) {
    q.process == Pending && q.matched.None? && q.nextAt.None?
  }

  predicate Delayed(q: Question) {
    q.process == Pending && q.nextAt.Some?
  }

  predicate NothingDue(t: Tables, now: int) {
    forall i :: 0 <= i < |t.questions| ==>
      !(t.questions[i].process == Pending && t.questions[i].matched.None?
        && (t.questions[i].nextAt.None? || t.questions[i].nextAt.value <= now))
  }

  predicate NothingDelayed(t: Tables) {
    forall i :: 0 <= i < |t.questions| ==> !Delayed(t.questions[i])
  }

  function Next(w: World, e: Event, maxAttempts: nat): World {
    match e
    case WorkerClears => if w.worker == Clearing then w.(event := false, worker := Scanning) else w
    case WorkerMatches(q, normalized, m) =>
      if w.worker != Scanning then w
      else w.(tables := ReviewQueue.Next(w.tables, CommitMatch(q, normalized, m), maxAttempts))
    case WorkerFails(q, retryAt) =>
      if w.worker != Scanning then w
      else w.(tables := ReviewQueue.Next(w.tables, MarkFailure(q, retryAt), maxAttempts))
    case WorkerDrained(now) =>
      if w.worker == Scanning && NothingDue(w.tables, now) then w.(worker := Deciding, recent := {}, lost := {}) else w
    case WorkerSleeps =>
      if w.worker != Deciding then w else w.(worker := Asleep(NothingDelayed(w.tables), false))
    case WorkerRaises =>
      if w.worker == Scanning || w.worker == Deciding then w.(worker := Asleep(false, true)) else w
    case WorkerWakes => if w.worker.Asleep? && w.event then w.(worker := Clearing) else w
    case WorkerTimesOut => if w.worker.Asleep? && !w.worker.forever then w.(worker := Clearing) else w
    case ProducerPools => Produced(w, |w.tables.questions|, ReviewQueue.Next(w.tables, Pool, maxAttempts))
    case ProducerRetries(q) =>
      if q >= |w.tables.questions| || w.tables.questions[q].process != Failed then w
      else Produced(w, q, ReviewQueue.Next(w.tables, RetryFailed(q), maxAttempts))
    case ProducerNotifies(q) =>
      if q !in w.inflight then w else w.(event := true, inflight := w.inflight - multiset{q})
    case ProducerCancelled(q) =>
      if q !in w.inflight then w
      else w.(inflight := w.inflight - multiset{q}, lost := if q in w.recent then w.lost + {q} else w.lost)
    case RunNow => w.(event := true)
    case HumanRejects(r) => w.(tables := ReviewQueue.Next(w.tables, Reject(r), maxAttempts))
    case HumanFreezes(r, answer) => w.(tables := ReviewQueue.Next(w.tables, Freeze(r, answer, []), maxAttempts))
    case HumanPublishes(r) => w.(tables := ReviewQueue.Next(w.tables, Publish(r), maxAttempts))
  }

  // A producer has committed question q and owes a notification.
  function Produced(w: World, q: nat, tables: Tables): World {
    w.(tables := tables, inflight := w.inflight + multiset{q}, recent := w.recent + {q})
  }

  function Run(w: World, events: seq<Event>, maxAttempts: nat): World {
    if events == [] then w
    else Next(Run(w, events[..|events| - 1], maxAttempts), events[|events| - 1], maxAttempts)
  }

  // ---------------------------------------------------------------- no lost wake-up

  predicate IsWaiting(t: Tables, q: nat) {
    q < |t.questions| && Waiting(t.questions[q])
  }

  // The worker has drained the queue and has not started again.
  predicate Rests(w: World) {
    w.worker == Deciding || (w.worker.Asleep? && !w.worker.afterError)
  }

  // What waits came since the drain, and while the event is unset all of it is still to be announced or lost.
  ghost predicate Announced(w: World) {
    && (forall q: nat :: IsWaiting(w.tables, q) <==> q in w.recent)
    && (!w.event ==> forall q :: q in w.recent ==> q in w.inflight || q in w.lost)
  }

  ghost predicate Inv(w: World, maxAttempts: nat) {
    && ReviewQueue.Inv(w.tables, maxAttempts) && w.lost <= w.recent
    && (Rests(w) ==> Announced(w))
    && (w.worker.Asleep? && w.worker.forever ==> NothingDelayed(w.tables) && !w.worker.afterError)
  }

  // A process that starts, with whatever an earlier one left in the tables.
  function Begin(tables: Tables, event: bool): World {
    World(tables, event, Clearing, multiset{}, {}, {})
  }

  const START := Begin(Tables([], []), false)

  lemma ProducedKeepsInv(w: World, q: nat, tables: Tables, maxAttempts: nat)
    requires Inv(w, maxAttempts) && ReviewQueue.Inv(tables, maxAttempts)
    requires forall k: nat :: IsWaiting(tables, k) <==> IsWaiting(w.tables, k) || k == q
    requires NothingDelayed(w.tables) ==> NothingDelayed(tables)
    ensures Inv(Produced(w, q, tables), maxAttempts)
  {
  }

  // The worker and the humans put nothing back into the queue.
  lemma OthersKeepInv(w: World, tables: Tables, maxAttempts: nat)
    requires Inv(w, maxAttempts) && ReviewQueue.Inv(tables, maxAttempts)
    requires Rests(w) || w.worker.Asleep? ==> tables.questions == w.tables.questions
    ensures Inv(w.(tables := tables), maxAttempts)
  {
  }

  lemma PoolWaits(t: Tables, maxAttempts: nat)
    ensures var t' := ReviewQueue.Next(t, Pool, maxAttempts);
            && (forall k: nat :: IsWaiting(t', k) <==> IsWaiting(t, k) || k == |t.questions|)
            && (NothingDelayed(t) ==> NothingDelayed(t'))
  {
  }

  lemma RetriedWaits(t: Tables, q: nat, maxAttempts: nat)
    requires ReviewQueue.Inv(t, maxAttempts) && q < |t.questions| && t.questions[q].process == Failed
    ensures var t' := ReviewQueue.Next(t, RetryFailed(q), maxAttempts);
            && (forall k: nat :: IsWaiting(t', k) <==> IsWaiting(t, k) || k == q)
            && (NothingDelayed(t) ==> NothingDelayed(t'))
  {
    assert QuestionOk(t.questions[q], |t.reviews|, maxAttempts);
  }

  // After the drain nothing waits.
  lemma DrainedKeepsInv(w: World, now: int, maxAttempts: nat)
    requires Inv(w, maxAttempts)
    ensures Inv(Next(w, WorkerDrained(now), maxAttempts), maxAttempts)
  {
  }

  lemma NotifyKeepsInv(w: World, e: Event, maxAttempts: nat)
    requires Inv(w, maxAttempts) && (e.ProducerNotifies? || e.ProducerCancelled? || e.RunNow?)
    ensures Inv(Next(w, e, maxAttempts), maxAttempts)
  {
  }

  lemma StepKeepsInv(w: World, e: Event, maxAttempts: nat)
    requires Inv(w, maxAttempts) && 1 <= maxAttempts
    ensures Inv(Next(w, e, maxAttempts), maxAttempts)
  {
    match e
    case WorkerMatches(q, normalized, m) =>
      if w.worker == Scanning { TableStepKeepsInv(w, CommitMatch(q, normalized, m), maxAttempts); }
    case WorkerFails(q, retryAt) =>
      if w.worker == Scanning { TableStepKeepsInv(w, MarkFailure(q, retryAt), maxAttempts); }
    case WorkerDrained(now) => DrainedKeepsInv(w, now, maxAttempts);
    case ProducerPools =>
      ReviewQueue.StepKeepsInv(w.tables, Pool, maxAttempts);
      PoolWaits(w.tables, maxAttempts);
      ProducedKeepsInv(w, |w.tables.questions|, ReviewQueue.Next(w.tables, Pool, maxAttempts), maxAttempts);
    case ProducerRetries(q) => RetryKeepsInv(w, q, maxAttempts);
    case ProducerNotifies(_) => NotifyKeepsInv(w, e, maxAttempts);
    case ProducerCancelled(_) => NotifyKeepsInv(w, e, maxAttempts);
    case RunNow => NotifyKeepsInv(w, e, maxAttempts);
    case HumanRejects(r) => TableStepKeepsInv(w, Reject(r), maxAttempts);
    case HumanFreezes(r, answer) => TableStepKeepsInv(w, Freeze(r, answer, []), maxAttempts);
    case HumanPublishes(r) => TableStepKeepsInv(w, Publish(r), maxAttempts);
    case _ => WorkerKeepsInv(w, e, maxAttempts);
  }

  lemma WorkerKeepsInv(w: World, e: Event, maxAttempts: nat)
    requires Inv(w, maxAttempts)
    requires e.WorkerClears? || e.WorkerSleeps? || e.WorkerRaises? || e.WorkerWakes? || e.WorkerTimesOut?
    ensures Inv(Next(w, e, maxAttempts), maxAttempts)
  {
  }

  lemma TableStepKeepsInv(w: World, e: ReviewQueue.Event, maxAttempts: nat)
    requires Inv(w, maxAttempts) && 1 <= maxAttempts
    requires e.Reject? || e.Freeze? || e.Publish? || ((e.CommitMatch? || e.MarkFailure?) && w.worker == Scanning)
    ensures Inv(w.(tables := ReviewQueue.Next(w.tables, e, maxAttempts)), maxAttempts)
  {
    ReviewQueue.StepKeepsInv(w.tables, e, maxAttempts);
    OthersKeepInv(w, ReviewQueue.Next(w.tables, e, maxAttempts), maxAttempts);
  }

  lemma RetryKeepsInv(w: World, q: nat, maxAttempts: nat)
    requires Inv(w, maxAttempts) && 1 <= maxAttempts
    ensures Inv(Next(w, ProducerRetries(q), maxAttempts), maxAttempts)
  {
    if q < |w.tables.questions| && w.tables.questions[q].process == Failed {
      ReviewQueue.StepKeepsInv(w.tables, RetryFailed(q), maxAttempts);
      RetriedWaits(w.tables, q, maxAttempts);
      ProducedKeepsInv(w, q, ReviewQueue.Next(w.tables, RetryFailed(q), maxAttempts), maxAttempts);
    }
  }

  lemma {:induction false} RunKeepsInv(w: World, events: seq<Event>, maxAttempts: nat)
    requires Inv(w, maxAttempts) && 1 <= maxAttempts
    ensures Inv(Run(w, events, maxAttempts), maxAttempts)
  {
    if events != [] {
      RunKeepsInv(w, events[..|events| - 1], maxAttempts);
      StepKeepsInv(Run(w, events[..|events| - 1], maxAttempts), events[|events| - 1], maxAttempts);
    }
  }

  // Main result, from any tables an earlier process left. Whenever the worker sleeps after a clean pass with its event
  // unset and no producer between commit and notify, a question waits exactly when it is lost: it came since the last
  // drain and its producer was cancelled in that window. If it sleeps without a timeout, these are all the pending
  // questions there are. Only a pass that raised sleeps otherwise, and then always with a timeout.
  lemma NoLostWakeup(tables: Tables, event: bool, events: seq<Event>, maxAttempts: nat, q: nat)
    requires ReviewQueue.Inv(tables, maxAttempts) && 1 <= maxAttempts
    requires var w := Run(Begin(tables, event), events, maxAttempts);
             w.worker.Asleep? && !w.event && w.inflight == multiset{}
    ensures var w := Run(Begin(tables, event), events, maxAttempts);
            && (w.worker.forever ==> !w.worker.afterError)
            && (!w.worker.afterError ==> (IsWaiting(w.tables, q) <==> q in w.lost))
            && (w.worker.forever ==> (IsPending(w.tables, q) <==> q in w.lost))
  {
    RunKeepsInv(Begin(tables, event), events, maxAttempts);
    var w := Run(Begin(tables, event), events, maxAttempts);
    if w.worker.forever && IsPending(w.tables, q) {
      assert QuestionOk(w.tables.questions[q], |w.tables.reviews|, maxAttempts) && !Delayed(w.tables.questions[q]);
    }
  }

  // ---------------------------------------------------------------- the wake-up comes

  // A sleeping worker whose event is set, or whose time is up, scans next, with the event cleared and the tables as
  // they were.
  lemma WokenWorkerScans(w: World, maxAttempts: nat)
    requires w.worker.Asleep? && (w.event || !w.worker.forever)
    ensures var wakes := if w.event then WorkerWakes else WorkerTimesOut;
            Next(Next(w, wakes, maxAttempts), WorkerClears, maxAttempts) == w.(event := false, worker := Scanning)
  {
  }

  // Whatever waits while the worker rests, and is not lost, is picked up: by the event that is set, or by the
  // notification that its producer still owes.
  lemma WaitingIsPickedUp(w: World, q: nat, normalized: string, maxAttempts: nat)
    requires Inv(w, maxAttempts) && w.worker.Asleep? && !w.worker.afterError
    requires IsWaiting(w.tables, q) && q !in w.lost
    ensures var told := if w.event then w else Next(w, ProducerNotifies(q), maxAttempts);
            var scanning := Next(Next(told, WorkerWakes, maxAttempts), WorkerClears, maxAttempts);
            && scanning.worker == Scanning && scanning.tables == w.tables
            && Next(scanning, WorkerMatches(q, normalized, None), maxAttempts).tables.questions[q].process == Processed
  {
  }

  // The button picks up the lost ones too; a delayed retry always has a timeout to wait for.
  lemma NothingSleepsForEver(w: World, maxAttempts: nat)
    requires Inv(w, maxAttempts) && w.worker.Asleep?
    ensures var scanning := Next(Next(Next(w, RunNow, maxAttempts), WorkerWakes, maxAttempts), WorkerClears,
                                 maxAttempts);
            scanning == w.(event := false, worker := Scanning)
    ensures (exists i :: 0 <= i < |w.tables.questions| && Delayed(w.tables.questions[i])) ==>
              Next(Next(w, WorkerTimesOut, maxAttempts), WorkerClears, maxAttempts).worker == Scanning
  {
  }

  // A question put back is waiting again, and its producer owes a notification.
  lemma PutBackWaits(w: World, q: nat, maxAttempts: nat)
    requires Inv(w, maxAttempts) && q < |w.tables.questions| && w.tables.questions[q].process == Failed
    ensures var w' := Next(w, ProducerRetries(q), maxAttempts);
            && IsWaiting(w'.tables, q) && q in w'.inflight && w'.worker == w.worker && w'.event == w.event
  {
    assert QuestionOk(w.tables.questions[q], |w.tables.reviews|, maxAttempts);
  }

  // A drain that has ended sleeps without a timeout exactly when no retry is due later; one that raised has one.
  lemma PassesEndAsleep(w: World, now: int, maxAttempts: nat)
    requires w.worker == Scanning
    ensures Next(w, WorkerRaises, maxAttempts).worker == Asleep(false, true)
    ensures NothingDue(w.tables, now) ==>
              Next(Next(w, WorkerDrained(now), maxAttempts), WorkerSleeps, maxAttempts).worker
              == Asleep(NothingDelayed(w.tables), false)
  {
  }

  predicate IsPending(t: Tables, q: nat) {
    q < |t.questions| && t.questions[q].process == Pending
  }

  ghost predicate NoCancels(events: seq<Event>) {
    forall i :: 0 <= i < |events| ==> !events[i].ProducerCancelled?
  }

  lemma StepLosesNothing(w: World, e: Event, maxAttempts: nat)
    requires w.lost == {} && !e.ProducerCancelled?
    ensures Next(w, e, maxAttempts).lost == {}
  {
  }

  lemma {:induction false} WithoutCancelsNothingIsLost(w: World, events: seq<Event>, maxAttempts: nat)
    requires w.lost == {} && NoCancels(events)
    ensures Run(w, events, maxAttempts).lost == {}
  {
    if events != [] {
      var init, last := events[..|events| - 1], events[|events| - 1];
      WithoutCancelsNothingIsLost(w, init, maxAttempts);
      assert !last.ProducerCancelled?;
      StepLosesNothing(Run(w, init, maxAttempts), last, maxAttempts);
    }
  }

  // So in a run where no producer is cancelled nothing waits then, and without a timeout nothing is pending.
  lemma NoCancelNoLostWakeup(tables: Tables, event: bool, events: seq<Event>, maxAttempts: nat, q: nat)
    requires ReviewQueue.Inv(tables, maxAttempts) && 1 <= maxAttempts
    requires NoCancels(events)
    requires var w := Run(Begin(tables, event), events, maxAttempts);
             w.worker.Asleep? && !w.worker.afterError && !w.event && w.inflight == multiset{}
    ensures var w := Run(Begin(tables, event), events, maxAttempts);
            !IsWaiting(w.tables, q) && (w.worker.forever ==> !IsPending(w.tables, q))
  {
    NoLostWakeup(tables, event, events, maxAttempts, q);
    WithoutCancelsNothingIsLost(Begin(tables, event), events, maxAttempts);
  }

  lemma RunOneMore(w: World, events: seq<Event>, e: Event, maxAttempts: nat)
    ensures Run(w, events + [e], maxAttempts) == Next(Run(w, events, maxAttempts), e, maxAttempts)
  {
    assert (events + [e])[..|events|] == events;
  }

  // The cancelled-producer window is real: one question pooled, its producer cancelled, the worker asleep for good.
  lemma CancelledProducerLosesTheWakeup(maxAttempts: nat)
    ensures var w := Run(START, [WorkerClears, WorkerDrained(0), ProducerPools, ProducerCancelled(0), WorkerSleeps],
                         maxAttempts);
            && w.worker == Asleep(true, false) && !w.event && w.inflight == multiset{} && w.lost == {0}
            && |w.tables.questions| == 1 && Waiting(w.tables.questions[0])
  {
    var one := [WorkerClears];
    var two := one + [WorkerDrained(0)];
    var three := two + [ProducerPools];
    var four := three + [ProducerCancelled(0)];
    assert one == [] + [WorkerClears];
    RunOneMore(START, [], WorkerClears, maxAttempts);
    var w2 := START.(worker := Deciding);
    RunOneMore(START, one, WorkerDrained(0), maxAttempts);
    assert Run(START, two, maxAttempts) == w2;
    var w3 := Next(w2, ProducerPools, maxAttempts);
    assert w3.tables.questions == [NEW_QUESTION] && w3.inflight == multiset{0} && w3.recent == {0};
    RunOneMore(START, two, ProducerPools, maxAttempts);
    var w4 := Next(w3, ProducerCancelled(0), maxAttempts);
    RunOneMore(START, three, ProducerCancelled(0), maxAttempts);
    RunOneMore(START, four, WorkerSleeps, maxAttempts);
    assert [WorkerClears, WorkerDrained(0), ProducerPools, ProducerCancelled(0), WorkerSleeps] == four + [WorkerSleeps];
    var w5 := Next(w4, WorkerSleeps, maxAttempts);
    assert w5.worker == Asleep(true, false) && w4.inflight == multiset{};
  }
}
