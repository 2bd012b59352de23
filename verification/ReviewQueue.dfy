/** Pooled questions and the review queue (app/services/flywheel.py, app/services/review_service.py). */
module ReviewQueue {
  // Every transaction as a function on the two tables, and what they conserve.
  import opened Basics

  // 待审, 写入中, 通过, 驳回
  datatype ReviewStatus = Open | Writing | Approved | Rejected

  datatype Review = Review(question: string, occurrences: nat, status: ReviewStatus, answer: Option<string>,
                           chunkIds: seq<int>)

  datatype Process = Pending | Processed | Failed

  datatype Question = Question(process: Process, attempts: nat, nextAt: Option<int>, matched: Option<nat>)

  // Ids are positions: both tables only grow.
  datatype Tables = Tables(questions: seq<Question>, reviews: seq<Review>)

  datatype Outcome = Merged | Created | Skipped | TargetClosed

  datatype Event =
    | Pool
    | CommitMatch(q: nat, normalized: string, match_: Option<nat>)
    | MarkFailure(q: nat, retryAt: int)
    | RetryFailed(q: nat)
    | Reject(r: nat)
    | Freeze(r: nat, answer: string, chunkIds: seq<int>)
    | Publish(r: nat)

  const NEW_QUESTION := Question(Pending, 0, None, None)

  // The row is still the worker's to handle.
  predicate Claimable(t: Tables, q: nat) {
    q < |t.questions| && t.questions[q].process == Pending && t.questions[q].matched.None?
  }

  function MatchOutcome(t: Tables, q: nat, match_: Option<nat>): Outcome {
    if !Claimable(t, q) then Skipped
    else if match_.None? then Created
    else if match_.value >= |t.reviews| || t.reviews[match_.value].status != Open then TargetClosed
    else Merged
  }

  function AfterMatch(t: Tables, q: nat, normalized: string, match_: Option<nat>): Tables {
    match MatchOutcome(t, q, match_)
    case Merged =>
      var r := match_.value;
      Tables(t.questions[q := t.questions[q].(process := Processed, nextAt := None, matched := Some(r))],
             t.reviews[r := t.reviews[r].(occurrences := t.reviews[r].occurrences + 1)])
    case Created =>
      Tables(t.questions[q := t.questions[q].(process := Processed, nextAt := None, matched := Some(|t.reviews|))],
             t.reviews + [Review(normalized, 1, Open, None, [])])
    case _ => t
  }

  function AfterFailure(question: Question, retryAt: int, maxAttempts: nat): Question {
    var attempts := question.attempts + 1;
    if attempts >= maxAttempts then question.(attempts := attempts, process := Failed, nextAt := None)
    else question.(attempts := attempts, nextAt := Some(retryAt))
  }

  function Next(t: Tables, e: Event, maxAttempts: nat): Tables {
    match e
    case Pool => t.(questions := t.questions + [NEW_QUESTION])
    case CommitMatch(q, normalized, m) => AfterMatch(t, q, normalized, m)
    case MarkFailure(q, retryAt) =>
      if !Claimable(t, q) then t
      else t.(questions := t.questions[q := AfterFailure(t.questions[q], retryAt, maxAttempts)])
    case RetryFailed(q) =>
      if q >= |t.questions| || t.questions[q].process != Failed then t
      else t.(questions := t.questions[q := t.questions[q].(process := Pending, attempts := 0, nextAt := None)])
    case Reject(r) =>
      if r >= |t.reviews| || t.reviews[r].status != Open then t
      else t.(reviews := t.reviews[r := t.reviews[r].(status := Rejected)])
    case Freeze(r, answer, ids) =>
      if r >= |t.reviews| || t.reviews[r].status != Open then t
      else t.(reviews := t.reviews[r := t.reviews[r].(status := Writing, answer := Some(answer), chunkIds := ids)])
    case Publish(r) =>
      if r >= |t.reviews| || t.reviews[r].status != Writing then t
      else t.(reviews := t.reviews[r := t.reviews[r].(status := Approved)])
  }

  function Run(t: Tables, events: seq<Event>, maxAttempts: nat): Tables {
    if events == [] then t
    else Next(Run(t, events[..|events| - 1], maxAttempts), events[|events| - 1], maxAttempts)
  }

  // One question from the pool to the knowledge base: pooled, made a review of its own, answered, published.
  lemma LifeOfAQuestion(t: Tables, normalized: string, answer: string, ids: seq<int>, maxAttempts: nat)
    ensures var q, r := |t.questions|, |t.reviews|;
            var matched := Next(Next(t, Pool, maxAttempts), CommitMatch(q, normalized, None), maxAttempts);
            var frozen := Next(matched, Freeze(r, answer, ids), maxAttempts);
            && matched == Tables(t.questions + [Question(Processed, 0, None, Some(r))],
                                 t.reviews + [Review(normalized, 1, Open, None, [])])
            && frozen == matched.(reviews := t.reviews + [Review(normalized, 1, Writing, Some(answer), ids)])
            && Next(frozen, Publish(r), maxAttempts)
               == matched.(reviews := t.reviews + [Review(normalized, 1, Approved, Some(answer), ids)])
            && Next(matched, Reject(r), maxAttempts)
               == matched.(reviews := t.reviews + [Review(normalized, 1, Rejected, None, [])])
  {
  }

  // A question given up and put back has all its attempts again.
  lemma GivenUpAndPutBack(t: Tables, q: nat, retryAt: int, maxAttempts: nat)
    requires Claimable(t, q) && t.questions[q].attempts + 1 >= maxAttempts
    ensures var failed := Next(t, MarkFailure(q, retryAt), maxAttempts);
            && failed.questions[q].process == Failed
            && Next(failed, RetryFailed(q), maxAttempts) == t.(questions := t.questions[q := NEW_QUESTION])
  {
  }

  // ---------------------------------------------------------------- counting

  function CountMatched(questions: seq<Question>, r: nat): nat {
    if questions == [] then 0
    else CountMatched(questions[..|questions| - 1], r) + if questions[|questions| - 1].matched == Some(r) then 1 else 0
  }

  lemma {:induction false} CountAfterUpdate(questions: seq<Question>, i: nat, q: Question, r: nat)
    requires i < |questions|
    ensures CountMatched(questions[i := q], r)
            == CountMatched(questions, r) + (if q.matched == Some(r) then 1 else 0)
               - (if questions[i].matched == Some(r) then 1 else 0)
  {
    var n := |questions| - 1;
    if i < n {
      CountAfterUpdate(questions[..n], i, q, r);
      assert questions[i := q][..n] == questions[..n][i := q];
    } else {
      assert questions[i := q][..n] == questions[..n];
    }
  }

  lemma {:induction false} CountOfNone(questions: seq<Question>, r: nat)
    requires forall i :: 0 <= i < |questions| ==> questions[i].matched != Some(r)
    ensures CountMatched(questions, r) == 0
  {
    if questions != [] {
      CountOfNone(questions[..|questions| - 1], r);
    }
  }

  // ---------------------------------------------------------------- invariant

  ghost predicate QuestionOk(q: Question, reviews: nat, maxAttempts: nat) {
    && (q.process == Processed <==> q.matched.Some?)
    && (q.matched.Some? ==> q.matched.value < reviews)
    && (q.process == Pending ==> q.attempts < maxAttempts)
    && (q.process != Pending ==> q.nextAt.None?)
  }

  ghost predicate Inv(t: Tables, maxAttempts: nat) {
    && (forall i :: 0 <= i < |t.questions| ==> QuestionOk(t.questions[i], |t.reviews|, maxAttempts))
    && (forall r :: 0 <= r < |t.reviews| ==> t.reviews[r].occurrences == CountMatched(t.questions, r))
  }

  lemma SameMatchKeepsInv(t: Tables, i: nat, q: Question, maxAttempts: nat)
    requires Inv(t, maxAttempts) && i < |t.questions|
    requires q.matched == t.questions[i].matched && QuestionOk(q, |t.reviews|, maxAttempts)
    ensures Inv(t.(questions := t.questions[i := q]), maxAttempts)
  {
    forall r | 0 <= r < |t.reviews|
      ensures CountMatched(t.questions[i := q], r) == CountMatched(t.questions, r)
    {
      CountAfterUpdate(t.questions, i, q, r);
    }
  }

  lemma MatchKeepsInv(t: Tables, q: nat, normalized: string, m: Option<nat>, maxAttempts: nat)
    requires Inv(t, maxAttempts)
    ensures Inv(AfterMatch(t, q, normalized, m), maxAttempts)
  {
    var t' := AfterMatch(t, q, normalized, m);
    var outcome := MatchOutcome(t, q, m);
    if outcome == Merged || outcome == Created {
      var target := if outcome == Merged then m.value else |t.reviews|;
      forall r | 0 <= r < |t'.reviews|
        ensures t'.reviews[r].occurrences == CountMatched(t'.questions, r)
      {
        CountAfterUpdate(t.questions, q, t'.questions[q], r);
        if r == |t.reviews| {
          CountOfNone(t.questions, r);
        }
      }
    }
  }

  lemma StepKeepsInv(t: Tables, e: Event, maxAttempts: nat)
    requires Inv(t, maxAttempts) && 1 <= maxAttempts
    ensures Inv(Next(t, e, maxAttempts), maxAttempts)
  {
    match e
    case Pool =>
      var t' := Next(t, Pool, maxAttempts);
      assert t'.questions[..|t.questions|] == t.questions;
    case CommitMatch(q, normalized, m) => MatchKeepsInv(t, q, normalized, m, maxAttempts);
    case MarkFailure(q, retryAt) =>
      if Claimable(t, q) {
        SameMatchKeepsInv(t, q, AfterFailure(t.questions[q], retryAt, maxAttempts), maxAttempts);
      }
    case RetryFailed(q) =>
      if q < |t.questions| && t.questions[q].process == Failed {
        SameMatchKeepsInv(t, q, t.questions[q].(process := Pending, attempts := 0, nextAt := None), maxAttempts);
      }
    case _ =>
  }

  // ---------------------------------------------------------------- what a later state keeps

  predicate StatusMoves(a: ReviewStatus, b: ReviewStatus) {
    a == b || (a == Open && b != Open) || (a == Writing && b == Approved)
  }

  // One transaction: a status moves at most one step along the same arrows.
  predicate StatusSteps(a: ReviewStatus, b: ReviewStatus) {
    a == b || (a == Open && (b == Writing || b == Rejected)) || (a == Writing && b == Approved)
  }

  // New reviews begin open.
  ghost predicate Steps(t: Tables, t': Tables) {
    && |t.reviews| <= |t'.reviews|
    && (forall r :: 0 <= r < |t.reviews| ==> StatusSteps(t.reviews[r].status, t'.reviews[r].status))
    && (forall r :: |t.reviews| <= r < |t'.reviews| ==> t'.reviews[r].status == Open)
  }

  // Along a run: status only moves Open -> Writing -> Approved or Open -> Rejected; the count grows only while the
  // review is open; a frozen answer stays; a matched question keeps its review for ever.
  ghost predicate ReviewKeeps(a: Review, b: Review) {
    && StatusMoves(a.status, b.status)
    && a.occurrences <= b.occurrences
    && (a.status != Open ==> b.occurrences == a.occurrences && b.answer == a.answer)
    && b.question == a.question
  }

  ghost predicate Keeps(t: Tables, t': Tables) {
    && |t.reviews| <= |t'.reviews| && |t.questions| <= |t'.questions|
    && (forall r :: 0 <= r < |t.reviews| ==> ReviewKeeps(t.reviews[r], t'.reviews[r]))
    && (forall q :: 0 <= q < |t.questions| && t.questions[q].matched.Some? ==> t'.questions[q] == t.questions[q])
  }

  lemma StepKeeps(t: Tables, e: Event, maxAttempts: nat)
    requires Inv(t, maxAttempts)
    ensures Keeps(t, Next(t, e, maxAttempts)) && Steps(t, Next(t, e, maxAttempts))
  {
    var t' := Next(t, e, maxAttempts);
    forall q | 0 <= q < |t.questions| && t.questions[q].matched.Some? ensures t'.questions[q] == t.questions[q] {
      assert QuestionOk(t.questions[q], |t.reviews|, maxAttempts);
    }
  }

  lemma KeepsTransitively(a: Tables, b: Tables, c: Tables)
    requires Keeps(a, b) && Keeps(b, c)
    ensures Keeps(a, c)
  {
    forall r | 0 <= r < |a.reviews| ensures ReviewKeeps(a.reviews[r], c.reviews[r]) {
      assert ReviewKeeps(a.reviews[r], b.reviews[r]) && ReviewKeeps(b.reviews[r], c.reviews[r]);
    }
  }

  // Main result, for every interleaving of the worker, its failures, human retries, rejections and approvals: each
  // review counts exactly the questions matched to it, a question is processed exactly when it is matched, a pending
  // one has attempts left, and nothing is counted twice or after the review has closed.
  lemma {:induction false} QueueConservation(t: Tables, events: seq<Event>, maxAttempts: nat)
    requires Inv(t, maxAttempts) && 1 <= maxAttempts
    ensures Inv(Run(t, events, maxAttempts), maxAttempts)
    ensures Keeps(t, Run(t, events, maxAttempts))
  {
    if events != [] {
      var mid := Run(t, events[..|events| - 1], maxAttempts);
      QueueConservation(t, events[..|events| - 1], maxAttempts);
      StepKeepsInv(mid, events[|events| - 1], maxAttempts);
      StepKeeps(mid, events[|events| - 1], maxAttempts);
      KeepsTransitively(t, mid, Next(mid, events[|events| - 1], maxAttempts));
    }
  }
}
