/** The review endpoints and the knowledge jobs (app/services/review_service.py, app/services/kb_admin.py). */
module ReviewService {
  // As code that updates tables, stores and the process-wide state: each transaction is one step of Publication.
  import opened Basics
  import opened KnowledgeRows
  import opened Ingest
  import opened Publication
  import Q = ReviewQueue

  datatype RejectResult = NoSuchReview | NotOpen | RejectedNow

  datatype RetryResult = NoSuchQuestion | NotFailed | Retried

  datatype ApproveResult =
    | Unconfigured
    | NotReady
    | Busy
    | Refused(outcome: FreezeOutcome)
    | AlreadyApproved(ids: seq<int>)
    | WriteFailed
    | Approved(ids: seq<int>)

  datatype RebuildResult = RebuildBusy | PreflightFailed | RebuildFailed | Rebuilt

  lemma VectorizedStep(a: Kb, b: Kb)
    requires Sound(a) && Sound(b) && Vectorized(a, b)
    ensures b.vectors <= Ids(a.rows)
  {
    forall x | x in b.vectors ensures x in Ids(a.rows) {
      assert x in Ids(b.rows);
      var i :| 0 <= i < |b.rows| && b.rows[i].id == x;
      assert a.rows[i].id == x;
    }
  }

  lemma {:induction false} RowsOfNone(rows: seq<Row>, s: Source)
    requires forall i :: 0 <= i < |rows| ==> rows[i].source != s
    ensures RowsOf(rows, s) == []
  {
    if rows != [] {
      RowsOfNone(rows[..|rows| - 1], s);
    }
  }

  lemma NothingPendingOnShelves(kb: Kb)
    requires NoPending(kb.rows)
    ensures forall r: nat :: NoPending(Shelf(kb, r))
  {
    forall r: nat ensures NoPending(Shelf(kb, r)) {
      RowsOfMembers(kb.rows, ReviewDoc(r));
      var shelf := Shelf(kb, r);
      forall i | 0 <= i < |shelf| ensures shelf[i].done {
        assert shelf[i] in shelf;
      }
    }
  }

  // Replay never refuses: what is frozen has an answer that was cut into chunks before.
  lemma InvCanReplay(c: Config, w: World)
    requires Inv(c, w)
    ensures CanReplay(c, w.tables.reviews)
  {
    forall r | 0 <= r < |w.tables.reviews| && IsFrozen(w.tables.reviews[r])
      ensures !Blank(Given(w.tables.reviews[r].answer))
      ensures c.split(w.tables.reviews[r].question, Given(w.tables.reviews[r].answer)) != []
    {
      assert Filed(c, w.tables.reviews[r], Shelf(w.kb, r));
    }
  }

  // Ingestion into cleared tables.
  lemma IngestedKeepsInv(c: Config, w: World, kb: Kb)
    requires Inv(c, w) && w.job.Cleared? && w.kb.rows == [] && Sound(kb) && DoneHasVector(kb)
    requires forall s: Source :: !s.Doc? ==> SourceKept(w.kb.rows, kb.rows, s)
    ensures Inv(c, w.(kb := kb))
  {
    forall r: nat ensures KeptRows(Shelf(w.kb, r), Shelf(kb, r)) {
      assert SourceKept(w.kb.rows, kb.rows, ReviewDoc(r));
    }
    KeptKeepsInv(c, w, kb);
  }

  lemma ResetKeepsInv(c: Config, w: World, kb: Kb)
    requires Inv(c, w) && w.job.Idle? && Sound(kb)
    requires DoneHasVectorOutsideDocs(w.kb) ==> DoneHasVectorOutsideDocs(kb)
    requires forall s: Source :: !s.Doc? ==> SourceKept(w.kb.rows, kb.rows, s)
    ensures Inv(c, w.(kb := kb))
  {
    forall r: nat ensures KeptRows(Shelf(w.kb, r), Shelf(kb, r)) {
      assert SourceKept(w.kb.rows, kb.rows, ReviewDoc(r));
    }
    KeptKeepsInv(c, w, kb);
  }

  // What restoring the reviews leaves of everything else: other rows stay, and done rows keep their vectors.
  ghost predicate OthersKept(a: Kb, b: Kb) {
    && (forall s: Source :: !s.ReviewDoc? ==> SourceKept(a.rows, b.rows, s))
    && (DoneHasVector(a) ==> DoneHasVector(b))
  }

  lemma OthersKeptTransitively(a: Kb, b: Kb, c: Kb)
    requires OthersKept(a, b) && OthersKept(b, c)
    ensures OthersKept(a, c)
  {
    forall s: Source | !s.ReviewDoc? ensures SourceKept(a.rows, c.rows, s) {
      SourceKeptTransitively(a.rows, b.rows, c.rows, s);
    }
  }

  lemma WithChunksKeepsOthers(kb: Kb, r: nat, texts: seq<string>)
    ensures OthersKept(kb, WithChunks(kb, r, texts))
  {
    if Shelf(kb, r) == [] {
      var more := Inserted(ReviewDoc(r), texts, kb.nextId);
      InsertKeepsDoneHasVector(kb, more);
      forall s: Source | !s.ReviewDoc? ensures RowsOf(kb.rows + more, s) == RowsOf(kb.rows, s) {
        RowsOfConcat(kb.rows, more, s);
        RowsOfUniform(more, ReviewDoc(r), s);
        assert RowsOf(kb.rows, s) + [] == RowsOf(kb.rows, s);
      }
    }
  }

  lemma ReplayStepKeepsOthers(c: Config, kb: Kb, out: (Kb, seq<Review>), next: (Kb, seq<Review>), review: Review,
                              r: nat)
    requires r < |out.1| && next == ReplayStep(c, out, review, r) && OthersKept(kb, out.0)
    ensures OthersKept(kb, next.0)
  {
    WithChunksKeepsOthers(out.0, r, c.split(review.question, Given(review.answer)));
    OthersKeptTransitively(kb, out.0, next.0);
  }

  lemma {:induction false} ReplayKeepsOthers(c: Config, kb: Kb, reviews: seq<Review>, n: nat)
    requires n <= |reviews|
    ensures OthersKept(kb, ReplayTo(c, kb, reviews, n).0)
  {
    var next := ReplayTo(c, kb, reviews, n);
    if n > 0 {
      var out := ReplayTo(c, kb, reviews, n - 1);
      ReplayKeepsOthers(c, kb, reviews, n - 1);
      ReplayUnfolds(c, kb, reviews, n);
      ReplayStepKeepsOthers(c, kb, out, next, reviews[n - 1], n - 1);
    }
  }

  lemma VectorizedKeepsOthers(a: Kb, b: Kb)
    requires Vectorized(a, b)
    ensures OthersKept(a, b)
  {
    VectorizedFacts(a, b, []);
  }

  // What an ingestion, and a rebuild, bring back: exactly these documents, everything done and in the vector store.
  ghost predicate HoldsExactly(kb: Kb, docs: seq<Document>) {
    AllLoaded(kb.rows, docs) && OnlyDocs(kb.rows, docs) && RowsOf(kb.rows, NoSource) == [] && Consistent(kb)
  }

  lemma OthersKeptHolds(a: Kb, b: Kb, docs: seq<Document>)
    requires HoldsExactly(a, docs) && OthersKept(a, b) && Sound(b) && NoPending(b.rows)
    ensures HoldsExactly(b, docs)
  {
    forall k | 0 <= k < |docs| ensures Texts(RowsOf(b.rows, Doc(docs[k].name)), docs[k].chunks) {
      assert SourceKept(a.rows, b.rows, Doc(docs[k].name));
      SameLinksTexts(RowsOf(a.rows, Doc(docs[k].name)), RowsOf(b.rows, Doc(docs[k].name)), docs[k].chunks);
    }
    forall s: Source | s.Doc? && !IsOneOf(s, docs) ensures RowsOf(b.rows, s) == [] {
      assert SourceKept(a.rows, b.rows, s);
    }
    assert SourceKept(a.rows, b.rows, NoSource);
    DoneAreVectors(a);
    ConsistentIff(b);
  }

  lemma DoneAreVectors(kb: Kb)
    requires Ids(kb.rows) == kb.vectors
    ensures DoneHasVector(kb)
  {
    forall i | 0 <= i < |kb.rows| ensures kb.rows[i].id in kb.vectors {
      assert kb.rows[i].id in Ids(kb.rows);
    }
  }

  // The queue after an approval that froze, and perhaps passed, review r.
  function AfterApproval(c: Config, w: World, r: nat, answer: Option<string>, passed: bool): Q.Tables
    requires r < |w.tables.reviews|
  {
    var t := AfterFreeze(c, w, r, answer).tables;
    if passed then Publish(t, r) else t
  }

  // Only review r changed, as freezing and passing change it.
  ghost predicate OnlyReview(a: Q.Tables, b: Q.Tables, r: nat) {
    && b.questions == a.questions && |b.reviews| == |a.reviews| && r < |a.reviews|
    && b.reviews[r] == a.reviews[r].(status := b.reviews[r].status, answer := b.reviews[r].answer,
                                     chunkIds := b.reviews[r].chunkIds)
    && forall k :: 0 <= k < |a.reviews| && k != r ==> b.reviews[k] == a.reviews[k]
  }

  lemma ApprovalSpec(c: Config, w: World, r: nat, answer: Option<string>, passed: bool)
    requires r < |w.tables.reviews|
    ensures var t := AfterApproval(c, w, r, answer, passed);
            && OnlyReview(w.tables, t, r)
            && t.reviews[r].answer == Some(AnswerFor(w.tables.reviews[r], answer))
            && t.reviews[r].status == if passed then Q.Approved else Q.Writing
  {
  }

  class ReviewDesk {
    const store: KnowledgeStore
    const c: Config
    var tables: Q.Tables
    var state: State
    var job: Job

    constructor (store: KnowledgeStore, c: Config)
      requires Sound(store.View()) && DoneHasVector(store.View())
      requires forall i :: 0 <= i < |store.rows| ==> !store.rows[i].source.ReviewDoc?
      ensures this.store == store && this.c == c && tables == Q.Tables([], []) && state.Ready? && job.Idle?
      ensures Inv(c, View())
    {
      this.store, this.c := store, c;
      tables, state, job := Q.Tables([], []), Ready, Idle;
      new;
      forall r: nat ensures Shelf(store.View(), r) == [] {
        RowsOfNone(store.rows, ReviewDoc(r));
      }
    }

    ghost function View(): World
      reads this, store
    {
      World(store.View(), tables, state, job)
    }

    ghost predicate Valid()
      reads this, store
    {
      Inv(c, View()) && 1 <= c.maxAttempts && 1 <= store.batchSize
    }

    method Reject(r: nat) returns (res: RejectResult)
      modifies this`tables
      ensures tables == Q.Next(old(tables), Q.Reject(r), c.maxAttempts)
      ensures res.NoSuchReview? <==> r >= |old(tables).reviews|
      ensures res.RejectedNow? <==> r < |old(tables).reviews| && old(tables).reviews[r].status == Q.Open
      ensures res.RejectedNow? ==>
                && tables.questions == old(tables).questions
                && tables.reviews == old(tables).reviews[r := old(tables).reviews[r].(status := Q.Rejected)]
      ensures !res.RejectedNow? ==> tables == old(tables)
    {
      if r >= |tables.reviews| {
        return NoSuchReview;
      }
      if tables.reviews[r].status != Q.Open {
        return NotOpen;
      }
      tables := tables.(reviews := tables.reviews[r := tables.reviews[r].(status := Q.Rejected)]);
      return RejectedNow;
    }

    method RetryFailedQuestion(q: nat) returns (res: RetryResult)
      modifies this`tables
      ensures tables == Q.Next(old(tables), Q.RetryFailed(q), c.maxAttempts)
      ensures res.Retried? <==> q < |old(tables).questions| && old(tables).questions[q].process == Q.Failed
      ensures res.NoSuchQuestion? <==> q >= |old(tables).questions|
      ensures res.Retried? ==>
                && tables.reviews == old(tables).reviews
                && tables.questions
                   == old(tables).questions[q := Q.Question(Q.Pending, 0, None, old(tables).questions[q].matched)]
      ensures !res.Retried? ==> tables == old(tables)
    {
      if q >= |tables.questions| {
        return NoSuchQuestion;
      }
      if tables.questions[q].process != Q.Failed {
        return NotFailed;
      }
      var again := tables.questions[q].(process := Q.Pending, attempts := 0, nextAt := None);
      tables := tables.(questions := tables.questions[q := again]);
      return Retried;
    }

    method FileChunks(r: nat, texts: seq<string>) returns (ids: seq<int>)
      modifies store
      ensures store.View() == WithChunks(old(store.View()), r, texts)
      ensures ids == IdSeq(Shelf(store.View(), r))
    {
      var shelf := RowsOf(store.rows, ReviewDoc(r));
      if shelf == [] {
        var more := Inserted(ReviewDoc(r), texts, store.nextId);
        store.rows, store.nextId := store.rows + more, store.nextId + |more|;
        shelf := RowsOf(store.rows, ReviewDoc(r));
      }
      return IdSeq(shelf);
    }

    // The freezing transaction: chunks, answer and status together, or nothing.
    method FreezeChunks(answer: Option<string>) returns (outcome: FreezeOutcome)
      requires Valid() && job.Approving?
      modifies this, store
      ensures outcome == OutcomeOf(c, old(store.View()), old(tables.reviews), old(job).review, answer)
      ensures View() == Next(c, old(View()), Freeze(answer)) && Valid()
      ensures outcome != Frozen ==> View() == old(View())
      ensures outcome == Frozen ==> View() == AfterFreeze(c, old(View()), old(job).review, answer)
      ensures outcome == Frozen ==> job == Publishing(old(job).review)
    {
      StepKeepsInv(c, View(), Freeze(answer));
      var r := job.review;
      outcome := OutcomeOf(c, store.View(), tables.reviews, r, answer);
      if outcome == Frozen {
        var review := tables.reviews[r];
        var a := AnswerFor(review, answer);
        var ids := FileChunks(r, c.split(review.question, a));
        tables := tables.(reviews := tables.reviews[r := FrozenReview(review, a, ids)]);
        job := Publishing(r);
      }
    }

    method VectorizeAll(stop: Stop) returns (ok: bool, left: Stop)
      requires Valid() && MayVectorize(job)
      modifies store
      ensures Valid() && Vectorized(old(store.View()), store.View())
      ensures ok ==> NoPending(store.rows)
      ensures stop.Never? ==> ok && left.Never?
    {
      ghost var before := View();
      ok, left := store.VectorizePending(stop);
      VectorizedStep(before.kb, store.View());
      StepKeepsInv(c, before, Vectorize(store.View()));
    }

    // Vectorize and pass, after the freeze.
    method VectorizeAndPass(stop: Stop) returns (ok: bool)
      requires Valid() && job.Publishing?
      modifies this, store
      ensures Valid() && job.Idle? && state == old(state)
      ensures tables == if ok then Publish(old(tables), old(job).review) else old(tables)
      ensures Vectorized(old(store.View()), store.View()) && (ok ==> NoPending(store.rows))
      ensures Shelf(store.View(), old(job).review) != []
      ensures stop.Never? ==> ok
    {
      var left;
      ok, left := VectorizeAll(stop);
      ok := ok && Goes(left);
      if ok {
        PassReview();
      } else {
        StepKeepsInv(c, View(), Stop);
        job := Idle;
      }
    }

    method PassReview()
      requires Valid() && job.Publishing? && NoPending(store.rows)
      modifies this
      ensures Valid() && job.Idle? && state == old(state)
      ensures tables == Publish(old(tables), old(job).review)
    {
      NothingPendingOnShelves(store.View());
      ghost var before := View();
      StepKeepsInv(c, before, Pass);
      tables, job := Publish(tables, job.review), Idle;
      assert View() == Next(c, before, Pass);
    }

    method ApproveLocked(r: nat, answer: Option<string>, stop: Stop) returns (res: ApproveResult)
      requires Valid() && job.Approving? && job.review == r
      modifies this, store
      ensures Valid() && job.Idle? && state == old(state)
      ensures var outcome := OutcomeOf(c, old(store.View()), old(tables.reviews), r, answer);
              if outcome != Frozen
              then res == NotFrozen(outcome, old(tables.reviews), r) && store.View() == old(store.View())
                  && tables == old(tables)
              else res.WriteFailed? || res.Approved?
      ensures res.WriteFailed? || res.Approved? ==>
                && r < |old(tables.reviews)| && Shelf(store.View(), r) != []
                && tables == AfterApproval(c, old(View()), r, answer, res.Approved?)
                && Vectorized(AfterFreeze(c, old(View()), r, answer).kb, store.View())
      ensures res.Approved? ==> res.ids == tables.reviews[r].chunkIds && NoPending(store.rows)
      ensures stop.Never? ==> !res.WriteFailed?
    {
      var outcome := FreezeChunks(answer);
      if outcome != Frozen {
        StepKeepsInv(c, View(), Stop);
        job := Idle;
        return NotFrozen(outcome, tables.reviews, r);
      }
      res := FinishApproval(r, stop);
    }

    method FinishApproval(r: nat, stop: Stop) returns (res: ApproveResult)
      requires Valid() && job == Publishing(r)
      modifies this, store
      ensures Valid() && job.Idle? && state == old(state) && (res.WriteFailed? || res.Approved?)
      ensures tables == if res.Approved? then Publish(old(tables), r) else old(tables)
      ensures Vectorized(old(store.View()), store.View()) && Shelf(store.View(), r) != []
      ensures res.Approved? ==> res.ids == tables.reviews[r].chunkIds && NoPending(store.rows)
      ensures stop.Never? ==> !res.WriteFailed?
    {
      var ok := VectorizeAndPass(stop);
      if !ok {
        return WriteFailed;
      }
      assert Filed(c, tables.reviews[r], Shelf(store.View(), r));
      return Approved(tables.reviews[r].chunkIds);
    }

    // Freeze, vectorize, pass, holding the job lock from the freeze on. What the call does to the tables follows from
    // its answer, and a failed write leaves a frozen review that the same call can finish.
    method Approve(embedding: bool, r: nat, answer: Option<string>, stop: Stop) returns (res: ApproveResult)
      requires Valid()
      modifies this, store
      ensures Valid() && job == old(job) && state == old(state)
      ensures res.Unconfigured? <==> !embedding
      ensures res.NotReady? <==> embedding && !old(state).Ready?
      ensures res.Busy? <==> embedding && old(state).Ready? && !old(job).Idle?
      ensures !res.WriteFailed? && !res.Approved? ==> store.View() == old(store.View()) && tables == old(tables)
      ensures res.WriteFailed? || res.Approved? ==>
                && OutcomeOf(c, old(store.View()), old(tables.reviews), r, answer) == Frozen
                && OnlyReview(old(tables), tables, r)
                && tables.reviews[r].answer == Some(AnswerFor(old(tables.reviews[r]), answer))
                && tables.reviews[r].status == (if res.Approved? then Q.Approved else Q.Writing)
                && Shelf(store.View(), r) != []
                && Vectorized(AfterFreeze(c, old(View()), r, answer).kb, store.View())
      ensures res.Approved? ==> res.ids == tables.reviews[r].chunkIds && NoPending(store.rows)
      ensures res.Refused? || res.AlreadyApproved? ==>
                res == NotFrozen(OutcomeOf(c, old(store.View()), old(tables.reviews), r, answer),
                    old(tables.reviews), r)
      ensures stop.Never? ==> !res.WriteFailed?
    {
      if !embedding {
        return Unconfigured;
      }
      if !state.Ready? {
        return NotReady;
      }
      if !job.Idle? {
        return Busy;
      }
      StepKeepsInv(c, View(), Start(Approving(r)));
      job := Approving(r);
      ghost var before := View();
      res := ApproveLocked(r, answer, stop);
      if res.WriteFailed? || res.Approved? {
        ApprovalSpec(c, before, r, answer, res.Approved?);
      }
    }

    static function NotFrozen(outcome: FreezeOutcome, reviews: seq<Review>, r: nat): ApproveResult {
      match outcome
      case AlreadyPublished => if r < |reviews| then AlreadyApproved(reviews[r].chunkIds) else Refused(outcome)
      case _ => Refused(outcome)
    }

    method RefileReviews() returns (reviews: seq<Review>)
      modifies store
      ensures (store.View(), reviews) == ReplayTo(c, old(store.View()), tables.reviews, |tables.reviews|)
    {
      reviews := tables.reviews;
      for r := 0 to |tables.reviews|
        invariant |reviews| == |tables.reviews|
        invariant (store.View(), reviews) == ReplayTo(c, old(store.View()), tables.reviews, r)
      {
        var review := tables.reviews[r];
        if IsFrozen(review) {
          var ids := FileChunks(r, c.split(review.question, Given(review.answer)));
          reviews := reviews[r := review.(chunkIds := ids)];
        }
      }
    }

    // The replay transaction: every frozen review gets its chunks back under fresh ids.
    method ReplayReviews()
      requires Valid() && job.Cleared?
      modifies this, store
      ensures View() == Next(c, old(View()), Replay) && Valid() && job == Replayed(0) && state == old(state)
      ensures SameButChunks(old(tables), tables) && OthersKept(old(store.View()), store.View())
    {
      ReplayKeepsOthers(c, store.View(), tables.reviews, |tables.reviews|);
      InvCanReplay(c, View());
      StepKeepsInv(c, View(), Replay);
      var reviews := RefileReviews();
      tables := tables.(reviews := reviews);
      job := Replayed(0);
    }

    // One review of the replay: checked, and approved if it was frozen.
    method ConvergeOne(stop: Stop) returns (ok: bool, left: Stop)
      requires Valid() && job.Replayed? && job.converged < |tables.reviews|
      modifies this
      ensures Valid() && state == old(state) && job.Replayed?
      ensures SameButStatus(old(tables), tables)
      ensures job.converged == old(job.converged) + (if ok then 1 else 0)
      ensures ok ==> tables.reviews[old(job.converged)].status != Q.Writing
      ensures stop.Never? ==> left.Never? && (NoPending(store.rows) ==> ok)
    {
      var r := job.converged;
      if !IsFrozen(tables.reviews[r]) {
        SkipReview();
        return true, stop;
      }
      if NoPending(store.rows) {
        NothingPendingOnShelves(store.View());
      }
      if !Goes(stop) || !NoPending(RowsOf(store.rows, ReviewDoc(r))) {
        return false, stop;
      }
      ApproveReplayed();
      return true, Spent(stop);
    }

    method SkipReview()
      requires Valid() && job.Replayed? && job.converged < |tables.reviews| && !IsFrozen(tables.reviews[job.converged])
      modifies this`job
      ensures Valid() && job == Replayed(old(job).converged + 1)
    {
      SkipKeepsInv(c, View());
      job := Replayed(job.converged + 1);
    }

    method ApproveReplayed()
      requires Valid() && job.Replayed? && job.converged < |tables.reviews| && IsFrozen(tables.reviews[job.converged])
      requires NoPending(Shelf(store.View(), job.converged))
      modifies this`tables, this`job
      ensures Valid() && job == Replayed(old(job).converged + 1)
      ensures tables == Publish(old(tables), old(job).converged)
    {
      ghost var before := View();
      StepKeepsInv(c, before, Converge);
      tables, job := Publish(tables, job.converged), Replayed(job.converged + 1);
      assert View() == Next(c, before, Converge);
    }

    // Review by review: whatever was frozen is approved, once none of its chunks is pending.
    method ConvergeAll(stop: Stop) returns (ok: bool)
      requires Valid() && job == Replayed(0)
      modifies this
      ensures Valid() && job.Replayed? && state == old(state)
      ensures SameButStatus(old(tables), tables)
      ensures ok ==> job.converged == |tables.reviews| && NoneWriting(tables.reviews, |tables.reviews|)
      ensures stop.Never? && NoPending(store.rows) ==> ok
    {
      var left := stop;
      ok := true;
      while ok && job.converged < |tables.reviews|
        invariant Valid() && job.Replayed? && job.converged <= |tables.reviews| && state == old(state)
        invariant stop.Never? ==> left.Never? && (NoPending(store.rows) ==> ok)
        invariant SameButStatus(old(tables), tables)
        invariant NoneWriting(tables.reviews, job.converged)
        decreases |tables.reviews| - job.converged, ok
      {
        ok, left := ConvergeOne(left);
      }
    }

    // The destructive part: drop the vectors, then clear the tables.
    method Clear(stop: Stop) returns (ok: bool, left: Stop)
      requires Valid() && job.Begun?
      modifies this`job, store
      ensures Valid() && InRebuild(job)
      ensures ok ==> job.Cleared? && store.rows == []
      ensures stop.Never? ==> ok && left.Never?
    {
      left := stop;
      if !Goes(left) {
        return false, left;
      }
      left := Spent(left);
      StepKeepsInv(c, View(), DropVectors);
      store.vectors, job := {}, Dropped;
      if !Goes(left) {
        return false, left;
      }
      left := Spent(left);
      StepKeepsInv(c, View(), ClearRows);
      store.rows, job := [], Cleared;
      ok := true;
    }

    // Into cleared tables every document is loaded, and nothing else.
    method IngestAll(docs: seq<Document>, stop: Stop) returns (ok: bool, left: Stop)
      requires Valid() && job.Cleared? && store.rows == [] && DistinctNames(docs)
      modifies store
      ensures Valid() && (ok ==> HoldsExactly(store.View(), docs))
      ensures stop.Never? ==> left.Never? && (ok <==> docs != [] && Chunkable(docs))
    {
      ghost var cleared := View();
      assert forall s: Source :: RowsOf(store.rows, s) == [];
      ClearedIsCompatible(store.rows, docs);
      ok, left := store.RunIngest(docs, false, stop);
      ClearedAreOnlyDocs(cleared.kb.rows, store.rows, docs);
      assert SourceKept(cleared.kb.rows, store.rows, NoSource);
      IngestedKeepsInv(c, cleared, store.View());
    }

    method DropAndIngest(docs: seq<Document>, stop: Stop) returns (ok: bool, left: Stop)
      requires Valid() && job.Begun? && DistinctNames(docs)
      modifies this`job, store
      ensures Valid() && InRebuild(job) && (ok ==> job.Cleared? && HoldsExactly(store.View(), docs))
      ensures stop.Never? ==> left.Never? && (ok <==> docs != [] && Chunkable(docs))
    {
      ok, left := Clear(stop);
      if ok {
        ok, left := IngestAll(docs, left);
      }
    }

    // Replay, vectorize, converge.
    method RestoreReviews(stop: Stop) returns (ok: bool)
      requires Valid() && job.Cleared?
      modifies this, store
      ensures Valid() && InRebuild(job) && state == old(state)
      ensures SameButProgress(old(tables), tables) && (ok ==> OthersKept(old(store.View()), store.View()))
      ensures ok ==> job == Replayed(|tables.reviews|) && NoneWriting(tables.reviews, |tables.reviews|)
      ensures ok ==> NoPending(store.rows)
      ensures stop.Never? ==> ok
    {
      if !Goes(stop) {
        return false;
      }
      ReplayReviews();
      ghost var replayed := store.View();
      var left;
      ok, left := VectorizeAll(Spent(stop));
      VectorizedKeepsOthers(replayed, store.View());
      OthersKeptTransitively(old(store.View()), replayed, store.View());
      if ok {
        ok := ConvergeAll(left);
      }
    }

    // The whole destructive part, up to the final check.
    method Restock(docs: seq<Document>, stop: Stop) returns (ok: bool)
      requires Valid() && job.Begun? && DistinctNames(docs)
      modifies this, store
      ensures Valid() && InRebuild(job) && state == old(state) && SameButProgress(old(tables), tables)
      ensures ok ==> job == Replayed(|tables.reviews|) && NoneWriting(tables.reviews, |tables.reviews|)
      ensures ok ==> HoldsExactly(store.View(), docs)
      ensures stop.Never? && docs != [] && Chunkable(docs) ==> ok
    {
      var left;
      ok, left := DropAndIngest(docs, stop);
      if ok {
        ghost var ingested := store.View();
        ok := RestoreReviews(left);
        if ok {
          OthersKeptHolds(ingested, store.View(), docs);
        }
      }
    }

    method RebuildBegun(docs: seq<Document>, smoke: bool, stop: Stop) returns (ok: bool)
      requires Valid() && job.Begun? && DistinctNames(docs)
      modifies this, store
      ensures Valid() && SameButProgress(old(tables), tables) && job.Idle?
      ensures state == if ok then Ready else RebuildRequired
      ensures ok ==> NoneWriting(tables.reviews, |tables.reviews|) && HoldsExactly(store.View(), docs)
      ensures stop.Never? && docs != [] && Chunkable(docs) && smoke ==> ok
    {
      ok := Restock(docs, stop);
      ok := ok && smoke;
      if ok {
        StepKeepsInv(c, View(), Finish);
        state, job := Ready, Idle;
      } else {
        GiveUp();
      }
    }

    method GiveUp()
      requires Valid() && InRebuild(job)
      modifies this`state, this`job
      ensures Valid() && state.RebuildRequired? && job.Idle?
    {
      StepKeepsInv(c, View(), Event.Stop);
      state, job := RebuildRequired, Idle;
    }

    // From whatever a stopped job left behind, a rebuild that runs through leads back to READY with every frozen review
    // approved; one that stops after its preflight leaves REBUILD_REQUIRED.
    method RebuildIndex(docs: seq<Document>, probes: bool, smoke: bool, stop: Stop) returns (res: RebuildResult)
      requires Valid() && DistinctNames(docs)
      modifies this, store
      ensures Valid() && SameButProgress(old(tables), tables)
      ensures res.RebuildBusy? <==> !old(job).Idle?
      ensures res.PreflightFailed? <==> old(job).Idle? && !(docs != [] && Chunkable(docs) && probes)
      ensures res.RebuildBusy? || res.PreflightFailed? ==> View() == old(View())
      ensures res.RebuildFailed? ==> state.RebuildRequired? && job.Idle?
      ensures res.Rebuilt? ==> state.Ready? && job.Idle? && NoneWriting(tables.reviews, |tables.reviews|)
                               && HoldsExactly(store.View(), docs)
      ensures stop.Never? && smoke ==> !res.RebuildFailed?
    {
      if !job.Idle? {
        return RebuildBusy;
      }
      if docs == [] || (exists k :: 0 <= k < |docs| && docs[k].chunks == []) || !probes {
        return PreflightFailed;
      }
      StepKeepsInv(c, View(), Start(Preflight));
      job := Preflight;
      StepKeepsInv(c, View(), Begin);
      state, job := Rebuilding, Begun;
      var ok := RebuildBegun(docs, smoke, stop);
      return if ok then Rebuilt else RebuildFailed;
    }

    // In a trusted store nothing but the documents themselves can make a reset fail.
    method ResetKb(docs: seq<Document>, embedding: bool, stop: Stop) returns (ok: bool)
      requires Valid() && DistinctNames(docs)
      modifies store
      ensures Valid() && (!job.Idle? ==> !ok && store.View() == old(store.View()))
      ensures ok ==> AllLoaded(store.rows, docs) && OnlyDocs(store.rows, docs)
                     && (embedding ==> Consistent(store.View()))
      ensures forall s: Source :: !s.Doc? ==> SourceKept(old(store.rows), store.rows, s)
      ensures stop.Never? && embedding && job.Idle? && state.Ready? ==> (ok <==> docs != [] && Chunkable(docs))
    {
      if !job.Idle? {
        return false;
      }
      ghost var start := View();
      ok := store.ResetKb(docs, embedding, stop);
      ResetKeepsInv(c, start, store.View());
    }
  }

  ghost predicate SameButChunks(a: Q.Tables, b: Q.Tables) {
    && b.questions == a.questions && |b.reviews| == |a.reviews|
    && forall r :: 0 <= r < |a.reviews| ==> b.reviews[r] == a.reviews[r].(chunkIds := b.reviews[r].chunkIds)
  }

  ghost predicate SameButStatus(a: Q.Tables, b: Q.Tables) {
    && b.questions == a.questions && |b.reviews| == |a.reviews|
    && forall r :: 0 <= r < |a.reviews| ==>
         && b.reviews[r] == a.reviews[r].(status := b.reviews[r].status)
         && Converges(a.reviews[r].status, b.reviews[r].status)
  }

  ghost predicate NoneWriting(reviews: seq<Review>, n: nat) {
    n <= |reviews| && forall r :: 0 <= r < n ==> reviews[r].status != Q.Writing
  }

  predicate Converges(a: Q.ReviewStatus, b: Q.ReviewStatus) {
    a == b || (a == Q.Writing && b == Q.Approved)
  }

  // What a rebuild, finished or not, may change in the queue.
  ghost predicate SameButProgress(a: Q.Tables, b: Q.Tables) {
    && b.questions == a.questions && |b.reviews| == |a.reviews|
    && forall r :: 0 <= r < |a.reviews| ==>
         && b.reviews[r] == a.reviews[r].(status := b.reviews[r].status, chunkIds := b.reviews[r].chunkIds)
         && Converges(a.reviews[r].status, b.reviews[r].status)
  }
}
