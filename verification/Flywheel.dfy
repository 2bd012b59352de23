/** The flywheel worker (app/services/flywheel.py): the drain over due questions and its termination. */
module Flywheel {
  import opened Basics
  import opened ReviewQueue

  predicate Due(q: Question, now: int) {
    q.process == Pending && q.matched.None? && (q.nextAt.None? || q.nextAt.value <= now)
  }

  // What the model says about one question: nothing usable, an existing review, or a new one.
  datatype Verdict = Unusable | Hit(review: nat) | Fresh

  // One try at a question, with the reviews humans close meanwhile: something raises before the write (reading the
  // candidates, the model call, the database), or the offered candidates are judged.
  datatype Attempt = Raised(closed: set<nat>) | Judged(closed: set<nat>, offered: set<nat>, verdict: Verdict)

  // One handling of a question: its standardised text, unless that call fails or its output is unusable, the first
  // try, and the single second one.
  datatype Handling = Handling(normalized: Option<string>, first: Attempt, again: Attempt)

  datatype Stats = Stats(merged: nat, created: nat, retried: nat, failed: nat)

  // The remaining work: attempts left over all pending questions.
  function AttemptsLeft(questions: seq<Question>, maxAttempts: nat): nat {
    if questions == [] then 0
    else
      var last := questions[|questions| - 1];
      AttemptsLeft(questions[..|questions| - 1], maxAttempts) + Left(last, maxAttempts)
  }

  function Left(q: Question, maxAttempts: nat): nat {
    if q.process == Pending && q.attempts < maxAttempts then maxAttempts - q.attempts else 0
  }

  lemma {:induction false} AttemptsLeftAfterUpdate(questions: seq<Question>, i: nat, q: Question, maxAttempts: nat)
    requires i < |questions|
    ensures AttemptsLeft(questions[i := q], maxAttempts)
            == AttemptsLeft(questions, maxAttempts) + Left(q, maxAttempts) - Left(questions[i], maxAttempts)
  {
    var n := |questions| - 1;
    if i < n {
      AttemptsLeftAfterUpdate(questions[..n], i, q, maxAttempts);
      assert questions[i := q][..n] == questions[..n][i := q];
    } else {
      assert questions[i := q][..n] == questions[..n];
    }
  }

  // Humans close open reviews while the model is thinking.
  function Close(reviews: seq<Review>, closed: set<nat>): (r: seq<Review>)
    ensures |r| == |reviews|
    ensures forall i :: 0 <= i < |r| ==>
              r[i] == if i in closed && reviews[i].status == Open then reviews[i].(status := Rejected) else reviews[i]
  {
    seq(|reviews|, i requires 0 <= i < |reviews| =>
      if i in closed && reviews[i].status == Open then reviews[i].(status := Rejected) else reviews[i])
  }

  lemma CloseKeepsInv(t: Tables, closed: set<nat>, maxAttempts: nat)
    requires Inv(t, maxAttempts)
    ensures Inv(t.(reviews := Close(t.reviews, closed)), maxAttempts)
  {
  }

  // The target to write: none when the verdict is unusable or names a review that was not offered. With no open
  // review among the offered ones the model is not asked and the question becomes a new review.
  function Target(reviews: seq<Review>, offered: set<nat>, verdict: Verdict): Option<Option<nat>> {
    var candidates := set i | i in offered && i < |reviews| && reviews[i].status == Open;
    if candidates == {} then Some(None)
    else match verdict
      case Unusable => None
      case Fresh => Some(None)
      case Hit(r) => if r in candidates then Some(Some(r)) else None
  }

  // What one try does to the tables, and its outcome: none when there is nothing to write.
  function Tried(t: Tables, q: nat, normalized: string, a: Attempt): (Tables, Option<Outcome>) {
    var t' := t.(reviews := Close(t.reviews, a.closed));
    var target := if a.Raised? then None else Target(t.reviews, a.offered, a.verdict);
    if target.None? then (t', None)
    else (AfterMatch(t', q, normalized, target.value), Some(MatchOutcome(t', q, target.value)))
  }

  predicate Settled(outcome: Option<Outcome>) {
    outcome == Some(Merged) || outcome == Some(Created)
  }

  // Both tries; the second only when the target was closed meanwhile.
  function TriedTwice(t: Tables, q: nat, normalized: string, h: Handling): (Tables, Option<Outcome>) {
    var (t1, outcome) := Tried(t, q, normalized, h.first);
    if outcome == Some(TargetClosed) then Tried(t1, q, normalized, h.again) else (t1, outcome)
  }

  // Without a standardised text nothing is tried.
  function Matched(t: Tables, q: nat, h: Handling): (Tables, Option<Outcome>) {
    if h.normalized.None? then (t.(reviews := Close(t.reviews, h.first.closed)), None)
    else TriedTwice(t, q, h.normalized.value, h)
  }

  // What is not settled spends an attempt.
  function Handled(t: Tables, q: nat, h: Handling, retryAt: int, maxAttempts: nat): Tables {
    if !Claimable(t, q) then t
    else
      var (t', outcome) := Matched(t, q, h);
      if Settled(outcome) then t' else Next(t', ReviewQueue.MarkFailure(q, retryAt), maxAttempts)
  }

  // A question without a standardised text is never settled, however empty the review queue is.
  lemma UnstandardisedSpendsAnAttempt(t: Tables, q: nat, h: Handling, retryAt: int, maxAttempts: nat)
    requires Claimable(t, q) && h.normalized.None?
    ensures var t' := Handled(t, q, h, retryAt, maxAttempts);
            && HasFailed(t, t', q, retryAt, maxAttempts)
            && t'.reviews == Close(t.reviews, h.first.closed)
  {
  }

  // The first due questions, by id, at most one batch.
  ghost predicate IsBatch(questions: seq<Question>, due: seq<nat>, now: int, batchSize: nat) {
    && |due| <= batchSize
    && (forall k :: 0 <= k < |due| ==> due[k] < |questions| && Due(questions[due[k]], now))
    && (forall k, l :: 0 <= k < l < |due| ==> due[k] < due[l])
    && (|due| < batchSize ==> forall i :: 0 <= i < |questions| && Due(questions[i], now) ==> i in due)
    && (due != [] ==> forall i :: 0 <= i < due[|due| - 1] && Due(questions[i], now) ==> i in due)
  }

  // What the outside world answers in a drain: for each round the clock, and for each place in it how the question
  // there is handled and when it would be tried again.
  datatype World = World(clock: nat -> int, handling: (nat, nat) -> Handling, retryAt: (nat, nat) -> int)

  // One round handles its questions in order.
  ghost function HandledBatch(t: Tables, due: seq<nat>, round: nat, w: World, maxAttempts: nat): Tables {
    if due == [] then t
    else
      var k := |due| - 1;
      Handled(HandledBatch(t, due[..k], round, w, maxAttempts), due[k], w.handling(round, k), w.retryAt(round, k),
              maxAttempts)
  }

  ghost function AfterRounds(t: Tables, rounds: seq<seq<nat>>, w: World, maxAttempts: nat): Tables {
    if rounds == [] then t
    else
      var n := |rounds| - 1;
      HandledBatch(AfterRounds(t, rounds[..n], w, maxAttempts), rounds[n], n, w, maxAttempts)
  }

  // Each round took the batch that was due when it began.
  ghost predicate AreRounds(t: Tables, rounds: seq<seq<nat>>, w: World, maxAttempts: nat, batchSize: nat) {
    rounds == []
    || var n := |rounds| - 1;
       && AreRounds(t, rounds[..n], w, maxAttempts, batchSize)
       && rounds[n] != []
       && IsBatch(AfterRounds(t, rounds[..n], w, maxAttempts).questions, rounds[n], w.clock(n), batchSize)
  }

  // An open review among those the try was shown.
  predicate Shown(t: Tables, a: Attempt, r: nat) {
    a.Judged? && r in a.offered && r < |t.reviews| && t.reviews[r].status == Open
  }

  predicate NoneShown(t: Tables, a: Attempt) {
    a.Judged? && forall r :: r in a.offered ==> !Shown(t, a, r)
  }

  // The question leaves the worker with a review.
  predicate IsMatched(t: Tables, t': Tables, q: nat, r: nat)
    requires q < |t.questions|
  {
    t'.questions == t.questions[q := Question(Processed, t.questions[q].attempts, None, Some(r))]
  }

  // The question has one attempt less; at the last one it is given up.
  predicate HasFailed(t: Tables, t': Tables, q: nat, retryAt: int, maxAttempts: nat)
    requires q < |t.questions|
  {
    var row := t.questions[q];
    var failed := if row.attempts + 1 >= maxAttempts then Question(Failed, row.attempts + 1, None, row.matched)
                  else Question(row.process, row.attempts + 1, Some(retryAt), row.matched);
    t'.questions == t.questions[q := failed]
  }

  // What the first judgement does. A question that is judged new, or meets no open review, becomes one of its own.
  lemma NewQuestionsOpenAReview(t: Tables, q: nat, h: Handling, retryAt: int, maxAttempts: nat)
    requires Claimable(t, q) && h.normalized.Some?
    requires NoneShown(t, h.first) || (h.first.Judged? && h.first.verdict.Fresh?)
    ensures var t' := Handled(t, q, h, retryAt, maxAttempts);
            && IsMatched(t, t', q, |t.reviews|)
            && t'.reviews == Close(t.reviews, h.first.closed) + [Review(h.normalized.value, 1, Open, None, [])]
  {
    if NoneShown(t, h.first) {
      NothingToChoose(t, h.first);
    }
  }

  lemma NothingToChoose(t: Tables, a: Attempt)
    requires NoneShown(t, a)
    ensures Target(t.reviews, a.offered, a.verdict) == Some(None)
  {
    var candidates := set i | i in a.offered && i < |t.reviews| && t.reviews[i].status == Open;
    assert forall i :: i in candidates ==> Shown(t, a, i);
    assert candidates == {};
  }

  lemma ShownIsChosen(t: Tables, a: Attempt, r: nat)
    requires Shown(t, a, r) && a.verdict == Hit(r)
    ensures Target(t.reviews, a.offered, a.verdict) == Some(Some(r))
  {
    var candidates := set i | i in a.offered && i < |t.reviews| && t.reviews[i].status == Open;
    assert r in candidates;
  }

  // A hit on a review that was shown and is still open counts the question there, and nowhere else.
  lemma HitsAreCounted(t: Tables, q: nat, h: Handling, r: nat, retryAt: int, maxAttempts: nat)
    requires Claimable(t, q) && h.normalized.Some?
    requires Shown(t, h.first, r) && h.first.verdict == Hit(r) && r !in h.first.closed
    ensures var t' := Handled(t, q, h, retryAt, maxAttempts);
            && IsMatched(t, t', q, r)
            && t'.reviews
               == Close(t.reviews, h.first.closed)[r := t.reviews[r].(occurrences := t.reviews[r].occurrences + 1)]
  {
    ShownIsChosen(t, h.first, r);
    var t1 := t.(reviews := Close(t.reviews, h.first.closed));
    assert MatchOutcome(t1, q, Some(r)) == Merged;
    assert Tried(t, q, h.normalized.value, h.first) == (AfterMatch(t1, q, h.normalized.value, Some(r)), Some(Merged));
  }

  // A try that raises, an unusable reply or a review that was not shown spends an attempt and matches nothing.
  lemma BadJudgementsFail(t: Tables, q: nat, h: Handling, retryAt: int, maxAttempts: nat)
    requires Claimable(t, q) && h.normalized.Some?
    requires h.first.Raised? || (!NoneShown(t, h.first) && h.first.verdict.Unusable?)
             || (!NoneShown(t, h.first) && h.first.verdict.Hit? && !Shown(t, h.first, h.first.verdict.review))
    ensures var t' := Handled(t, q, h, retryAt, maxAttempts);
            && HasFailed(t, t', q, retryAt, maxAttempts)
            && t'.reviews == Close(t.reviews, h.first.closed)
  {
    if h.first.Judged? {
      var candidates := set i | i in h.first.offered && i < |t.reviews| && t.reviews[i].status == Open;
      var r :| r in h.first.offered && Shown(t, h.first, r);
      assert r in candidates;
    }
  }

  // When the review was closed meanwhile the second try decides as a first one would, and there is no third.
  lemma SecondTryDecides(t: Tables, q: nat, h: Handling, r: nat, retryAt: int, maxAttempts: nat)
    requires Claimable(t, q) && h.normalized.Some?
    requires Shown(t, h.first, r) && h.first.verdict == Hit(r) && r in h.first.closed
    ensures Handled(t, q, h, retryAt, maxAttempts)
            == Handled(t.(reviews := Close(t.reviews, h.first.closed)), q, Handling(h.normalized, h.again, Raised({})),
                       retryAt, maxAttempts)
  {
    ShownIsChosen(t, h.first, r);
    var t1 := t.(reviews := Close(t.reviews, h.first.closed));
    var (t2, outcome) := Tried(t1, q, h.normalized.value, h.again);
    assert Close(t2.reviews, {}) == t2.reviews;
  }

  // What one handled question adds to the figures of a pass.
  function Counted(stats: Stats, process: Process, isNew: bool): Stats {
    match process
    case Failed => stats.(failed := stats.failed + 1)
    case Pending => stats.(retried := stats.retried + 1)
    case Processed => if isNew then stats.(created := stats.created + 1) else stats.(merged := stats.merged + 1)
  }

  function CountIn(questions: seq<Question>, process: Process): nat {
    if questions == [] then 0
    else CountIn(questions[..|questions| - 1], process)
         + if questions[|questions| - 1].process == process then 1 else 0
  }

  function AttemptsSpent(questions: seq<Question>): nat {
    if questions == [] then 0 else AttemptsSpent(questions[..|questions| - 1]) + questions[|questions| - 1].attempts
  }

  lemma {:induction false} CountsAfterUpdate(questions: seq<Question>, i: nat, q: Question, process: Process)
    requires i < |questions|
    ensures CountIn(questions[i := q], process)
            == CountIn(questions, process) + (if q.process == process then 1 else 0)
               - (if questions[i].process == process then 1 else 0)
    ensures AttemptsSpent(questions[i := q]) == AttemptsSpent(questions) + q.attempts - questions[i].attempts
  {
    var n := |questions| - 1;
    if i < n {
      CountsAfterUpdate(questions[..n], i, q, process);
      assert questions[i := q][..n] == questions[..n][i := q];
    } else {
      assert questions[i := q][..n] == questions[..n];
    }
  }

  // The figures of a pass against the tables: reviews opened, questions processed and given up, attempts spent.
  ghost predicate IsBalance(stats: Stats, t: Tables, t': Tables) {
    && stats.created == |t'.reviews| - |t.reviews|
    && stats.merged + stats.created == CountIn(t'.questions, Processed) - CountIn(t.questions, Processed)
    && stats.failed == CountIn(t'.questions, Failed) - CountIn(t.questions, Failed)
    && stats.retried + stats.failed == AttemptsSpent(t'.questions) - AttemptsSpent(t.questions)
  }

  // A handled question is processed at no cost, or has spent one attempt.
  predicate IsHandled(q: Question, q': Question) {
    q'.attempts == q.attempts + if q'.process == Processed then 0 else 1
  }

  lemma HandledQuestion(t: Tables, q: nat, h: Handling, retryAt: int, maxAttempts: nat)
    requires Claimable(t, q)
    ensures var t' := Handled(t, q, h, retryAt, maxAttempts);
            q < |t'.questions| && IsHandled(t.questions[q], t'.questions[q])
  {
  }

  lemma BalanceAfterHandling(stats: Stats, start: Tables, t: Tables, t': Tables, q: nat)
    requires IsBalance(stats, start, t) && Claimable(t, q)
    requires |t'.questions| == |t.questions| && t'.questions == t.questions[q := t'.questions[q]]
    requires IsHandled(t.questions[q], t'.questions[q])
    requires |t'.reviews| == |t.reviews| || (|t'.reviews| == |t.reviews| + 1 && t'.questions[q].process == Processed)
    ensures IsBalance(Counted(stats, t'.questions[q].process, |t'.reviews| > |t.reviews|), start, t')
  {
    CountsAfterUpdate(t.questions, q, t'.questions[q], Processed);
    CountsAfterUpdate(t.questions, q, t'.questions[q], Failed);
  }

  class FlywheelDb {
    var questions: seq<Question>
    var reviews: seq<Review>
    const maxAttempts: nat
    const batchSize: nat

    constructor (maxAttempts: nat, batchSize: nat)
      requires 1 <= maxAttempts && 1 <= batchSize
      ensures this.maxAttempts == maxAttempts && this.batchSize == batchSize
      ensures View() == Tables([], []) && Inv(View(), maxAttempts)
    {
      this.maxAttempts := maxAttempts;
      this.batchSize := batchSize;
      questions, reviews := [], [];
    }

    function View(): Tables
      reads this
    {
      Tables(questions, reviews)
    }

    // The first due questions, by id, at most one batch.
    method FetchDue(now: int) returns (due: seq<nat>)
      requires 1 <= batchSize
      ensures IsBatch(questions, due, now, batchSize)
    {
      due := [];
      var i := 0;
      while i < |questions| && |due| < batchSize
        invariant 0 <= i <= |questions| && |due| <= batchSize
        invariant forall k :: 0 <= k < |due| ==> due[k] < i && Due(questions[due[k]], now)
        invariant forall k, l :: 0 <= k < l < |due| ==> due[k] < due[l]
        invariant forall j :: 0 <= j < i && Due(questions[j], now) ==> j in due
      {
        if Due(questions[i], now) {
          due := due + [i];
        }
        i := i + 1;
      }
    }

    method CommitMatch(q: nat, normalized: string, match_: Option<nat>) returns (outcome: Outcome)
      modifies this
      ensures outcome == MatchOutcome(old(View()), q, match_)
      ensures View() == Next(old(View()), ReviewQueue.CommitMatch(q, normalized, match_), maxAttempts)
      ensures outcome == Skipped <==> !Claimable(old(View()), q)
      ensures outcome == TargetClosed <==>
                outcome != Skipped && match_.Some?
                    && (match_.value < |reviews| ==> reviews[match_.value].status != Open)
      ensures outcome == Skipped || outcome == TargetClosed ==> questions == old(questions) && reviews == old(reviews)
      ensures outcome == Merged ==>
                && match_.Some? && match_.value < |old(reviews)| && IsMatched(old(View()), View(), q, match_.value)
                && var r := match_.value;
                reviews == old(reviews)[r := old(reviews[r]).(occurrences := old(reviews[r].occurrences) + 1)]
      ensures outcome == Created ==>
                && match_.None? && IsMatched(old(View()), View(), q, |old(reviews)|)
                && reviews == old(reviews) + [Review(normalized, 1, Open, None, [])]
    {
      if q >= |questions| || questions[q].process != Pending || questions[q].matched.Some? {
        return Skipped;
      }
      var target;
      if match_.Some? {
        if match_.value >= |reviews| || reviews[match_.value].status != Open {
          return TargetClosed;
        }
        target := match_.value;
        reviews := reviews[target := reviews[target].(occurrences := reviews[target].occurrences + 1)];
        outcome := Merged;
      } else {
        target := |reviews|;
        reviews := reviews + [Review(normalized, 1, Open, None, [])];
        outcome := Created;
      }
      questions := questions[q := questions[q].(process := Processed, nextAt := None, matched := Some(target))];
    }

    method MarkFailure(q: nat, retryAt: int) returns (gaveUp: bool, skipped: bool)
      modifies this
      ensures View() == Next(old(View()), ReviewQueue.MarkFailure(q, retryAt), maxAttempts)
      ensures skipped <==> !Claimable(old(View()), q)
      ensures skipped ==> questions == old(questions) && !gaveUp
      ensures !skipped ==> HasFailed(old(View()), View(), q, retryAt, maxAttempts)
      ensures !skipped ==> (gaveUp <==> old(questions[q].attempts) + 1 >= maxAttempts)
      ensures reviews == old(reviews)
    {
      gaveUp, skipped := false, true;
      if q >= |questions| || questions[q].process != Pending || questions[q].matched.Some? {
        return;
      }
      skipped := false;
      var row := questions[q].(attempts := questions[q].attempts + 1);
      if row.attempts >= maxAttempts {
        row := row.(process := Failed, nextAt := None);
        gaveUp := true;
      } else {
        row := row.(nextAt := Some(retryAt));
      }
      questions := questions[q := row];
    }

    // One try: judge against the offered candidates, then write unless the target has closed meanwhile.
    method Try(q: nat, normalized: string, a: Attempt) returns (outcome: Option<Outcome>)
      requires Inv(View(), maxAttempts) && Claimable(View(), q)
      modifies this
      ensures (View(), outcome) == Tried(old(View()), q, normalized, a)
      ensures Inv(View(), maxAttempts)
      ensures |questions| == |old(questions)|
      ensures outcome == Some(Merged) || outcome == Some(Created) ==>
                questions == old(questions)[q := questions[q]] && questions[q].process == Processed
      ensures outcome != Some(Merged) && outcome != Some(Created) ==> questions == old(questions)
      ensures outcome != Some(Skipped)
      ensures |reviews| == |old(reviews)| + if outcome == Some(Created) then 1 else 0
    {
      var target := if a.Raised? then None else Target(reviews, a.offered, a.verdict);
      CloseKeepsInv(View(), a.closed, maxAttempts);
      reviews := Close(reviews, a.closed);
      if target.None? {
        return None;
      }
      ghost var before := View();
      var written := CommitMatch(q, normalized, target.value);
      MatchKeepsInv(before, q, normalized, target.value, maxAttempts);
      return Some(written);
    }

    // The first try, and the second when the target was closed.
    method Judge(q: nat, h: Handling) returns (outcome: Option<Outcome>)
      requires Inv(View(), maxAttempts) && Claimable(View(), q)
      modifies this
      ensures (View(), outcome) == Matched(old(View()), q, h)
      ensures Inv(View(), maxAttempts)
      ensures |questions| == |old(questions)|
      ensures Settled(outcome) ==> questions == old(questions)[q := questions[q]] && questions[q].process == Processed
      ensures !Settled(outcome) ==> questions == old(questions)
      ensures |reviews| == |old(reviews)| + if outcome == Some(Created) then 1 else 0
    {
      if h.normalized.None? {
        CloseKeepsInv(View(), h.first.closed, maxAttempts);
        reviews := Close(reviews, h.first.closed);
        return None;
      }
      outcome := Try(q, h.normalized.value, h.first);
      if outcome == Some(TargetClosed) {
        outcome := Try(q, h.normalized.value, h.again);
      }
    }

    // Nothing was written: the question spends an attempt.
    method Fail(q: nat, retryAt: int, stats: Stats) returns (stats': Stats)
      requires Inv(View(), maxAttempts) && 1 <= maxAttempts && Claimable(View(), q)
      modifies this
      ensures View() == Next(old(View()), ReviewQueue.MarkFailure(q, retryAt), maxAttempts)
      ensures Inv(View(), maxAttempts)
      ensures |questions| == |old(questions)| && questions == old(questions)[q := questions[q]]
      ensures AttemptsLeft(questions, maxAttempts) < AttemptsLeft(old(questions), maxAttempts)
      ensures stats' == Counted(stats, questions[q].process, false) && reviews == old(reviews)
      ensures questions[q].process != Processed
    {
      ghost var before := View();
      var gaveUp, skipped := MarkFailure(q, retryAt);
      StepKeepsInv(before, ReviewQueue.MarkFailure(q, retryAt), maxAttempts);
      AttemptsLeftAfterUpdate(old(questions), q, questions[q], maxAttempts);
      return if gaveUp then stats.(failed := stats.failed + 1) else stats.(retried := stats.retried + 1);
    }

    // A question either ends up matched or spends one attempt.
    method Handle(q: nat, h: Handling, retryAt: int, stats: Stats, ghost start: Tables) returns (stats': Stats)
      requires Inv(View(), maxAttempts) && 1 <= maxAttempts && q < |questions|
      requires IsBalance(stats, start, View())
      modifies this
      ensures View() == Handled(old(View()), q, h, retryAt, maxAttempts)
      ensures Inv(View(), maxAttempts)
      ensures |questions| == |old(questions)| && questions == old(questions)[q := questions[q]]
      ensures !Claimable(old(View()), q) ==> questions == old(questions) && stats' == stats
      ensures Claimable(old(View()), q) ==>
                AttemptsLeft(questions, maxAttempts) < AttemptsLeft(old(questions), maxAttempts)
      ensures Claimable(old(View()), q) ==> stats' == Counted(stats, questions[q].process, |reviews| > |old(reviews)|)
      ensures IsBalance(stats', start, View())
    {
      if !(questions[q].process == Pending && questions[q].matched.None?) {
        return stats;
      }
      ghost var before := View();
      var outcome := Judge(q, h);
      if outcome == Some(Merged) || outcome == Some(Created) {
        AttemptsLeftAfterUpdate(old(questions), q, questions[q], maxAttempts);
        stats' := Counted(stats, Processed, outcome == Some(Created));
      } else {
        stats' := Fail(q, retryAt, stats);
      }
      HandledQuestion(before, q, h, retryAt, maxAttempts);
      BalanceAfterHandling(stats, start, before, View(), q);
    }

    // One round: the questions that were due, in order.
    method HandleBatch(due: seq<nat>, round: nat, w: World, stats: Stats, ghost start: Tables) returns (stats': Stats)
      requires Inv(View(), maxAttempts) && 1 <= maxAttempts && 1 <= |due|
      requires forall k :: 0 <= k < |due| ==> due[k] < |questions|
      requires Claimable(View(), due[0]) && IsBalance(stats, start, View())
      modifies this
      ensures View() == HandledBatch(old(View()), due, round, w, maxAttempts)
      ensures Inv(View(), maxAttempts) && |questions| == |old(questions)|
      ensures AttemptsLeft(questions, maxAttempts) < AttemptsLeft(old(questions), maxAttempts)
      ensures IsBalance(stats', start, View())
    {
      stats' := stats;
      for k := 0 to |due|
        invariant Inv(View(), maxAttempts) && |questions| == |old(questions)|
        invariant k == 0 ==> View() == old(View())
        invariant k > 0 ==> AttemptsLeft(questions, maxAttempts) < AttemptsLeft(old(questions), maxAttempts)
        invariant View() == HandledBatch(old(View()), due[..k], round, w, maxAttempts)
        invariant IsBalance(stats', start, View())
      {
        stats' := Handle(due[k], w.handling(round, k), w.retryAt(round, k), stats', start);
        assert due[..k + 1][..k] == due[..k];
      }
      assert due[..|due|] == due;
    }

    // Drains every due question. Nothing is assumed of the clock or of the retry times: the drain ends because each
    // round spends an attempt of some pending question or takes it out of the queue.
    method ProcessPending(w: World) returns (stats: Stats, now: int, ghost rounds: seq<seq<nat>>)
      requires Inv(View(), maxAttempts) && 1 <= maxAttempts && 1 <= batchSize
      modifies this
      ensures Inv(View(), maxAttempts)
      ensures |questions| == |old(questions)|
      ensures AreRounds(old(View()), rounds, w, maxAttempts, batchSize)
      ensures View() == AfterRounds(old(View()), rounds, w, maxAttempts)
      ensures now == w.clock(|rounds|)
      ensures forall i :: 0 <= i < |questions| ==> !Due(questions[i], now)
      ensures IsBalance(stats, old(View()), View())
    {
      stats, rounds := Stats(0, 0, 0, 0), [];
      var round := 0;
      now := w.clock(0);
      var due: seq<nat> := FetchDue(now);
      while due != []
        invariant Inv(View(), maxAttempts) && |questions| == |old(questions)|
        invariant IsBatch(questions, due, now, batchSize)
        invariant round == |rounds| && now == w.clock(round)
        invariant AreRounds(old(View()), rounds, w, maxAttempts, batchSize)
        invariant View() == AfterRounds(old(View()), rounds, w, maxAttempts)
        invariant IsBalance(stats, old(View()), View())
        decreases AttemptsLeft(questions, maxAttempts)
      {
        assert (rounds + [due])[..round] == rounds;
        rounds := rounds + [due];
        stats := HandleBatch(due, round, w, stats, old(View()));
        round := round + 1;
        now := w.clock(round);
        due := FetchDue(now);
      }
    }
  }
}
