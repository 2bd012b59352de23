/** Publishing approved reviews (app/services/review_service.py, app/services/kb_admin.py). */
module Publication {
  // Freeze, vectorize, pass, under the job lock shared with reset, rebuild and every other knowledge job, and with the
  // queue's own transactions in between.
  import opened Basics
  import opened KnowledgeRows
  import opened Ingest
  import Q = ReviewQueue

  type Review = Q.Review

  datatype State = Ready | Rebuilding | RebuildRequired

  // What the holder of the job lock is doing, up to its last commit.
  datatype Job =
    | Idle
    | Approving(review: nat)
    | Publishing(review: nat)
    | ResetStarted
    | ResetHalfway
    | Working
    | Preflight
    | Begun
    | Dropped
    | Cleared
    | Replayed(converged: nat)

  datatype World = World(kb: Kb, tables: Q.Tables, state: State, job: Job)

  // split cuts a question and its answer into chunk texts, and gives nothing when it cannot.
  datatype Config = Config(split: (string, string) -> seq<string>, maxAttempts: nat)

  datatype Event =
    | Queue(event: Q.Event)
    | Start(job: Job)
    | Vectorize(after: Kb)
    | InsertDoc(name: string, texts: seq<string>)
    | InsertLoose(texts: seq<string>)
    | DeleteDocVectors
    | DeleteDocRows
    | Freeze(answer: Option<string>)
    | Pass
    | Begin
    | DropVectors
    | ClearRows
    | Replay
    | Converge
    | Finish
    | Stop

  function Shelf(kb: Kb, r: nat): seq<Row> {
    RowsOf(kb.rows, ReviewDoc(r))
  }

  function IdSeq(rs: seq<Row>): (ids: seq<int>)
    ensures |ids| == |rs| && forall i :: 0 <= i < |ids| ==> ids[i] == rs[i].id
  {
    seq(|rs|, i requires 0 <= i < |rs| => rs[i].id)
  }

  predicate IsFrozen(review: Review) {
    review.status == Q.Writing || review.status == Q.Approved
  }

  // ---------------------------------------------------------------- freezing

  // _freeze_chunks: chunks that are there already are used again.
  function WithChunks(kb: Kb, r: nat, texts: seq<string>): Kb {
    if Shelf(kb, r) != [] then kb else Insert(kb, Inserted(ReviewDoc(r), texts, kb.nextId))
  }

  function Given(answer: Option<string>): string {
    if answer.Some? then answer.value else ""
  }

  // An answer is sent along and is not the frozen one.
  predicate Differs(answer: Option<string>, frozen: Option<string>) {
    Given(answer) != "" && frozen != Some(Strip(Given(answer)))
  }

  datatype FreezeOutcome = Missing | WasRejected | AnswerIsFixed | AlreadyPublished | NoAnswer | Unsplittable | Frozen

  function AnswerFor(review: Review, answer: Option<string>): string {
    if review.status == Q.Open then Strip(Given(answer)) else Given(review.answer)
  }

  function OutcomeOf(c: Config, kb: Kb, reviews: seq<Review>, r: nat, answer: Option<string>): FreezeOutcome {
    if r >= |reviews| then Missing
    else match reviews[r].status
      case Rejected => WasRejected
      case Approved => if Differs(answer, reviews[r].answer) then AnswerIsFixed else AlreadyPublished
      case Writing =>
        if Differs(answer, reviews[r].answer) then AnswerIsFixed
        else if Shelf(kb, r) == [] && c.split(reviews[r].question, AnswerFor(reviews[r], answer)) == []
            then Unsplittable
        else Frozen
      case Open =>
        if Strip(Given(answer)) == "" then NoAnswer
        else if Shelf(kb, r) == [] && c.split(reviews[r].question, AnswerFor(reviews[r], answer)) == []
            then Unsplittable
        else Frozen
  }

  // An answer comes along that is not the frozen one: it is not empty, and stripped it reads differently.
  predicate IsOtherAnswer(answer: Option<string>, review: Review) {
    answer.Some? && answer.value != "" && review.answer != Some(Strip(answer.value))
  }

  // When each outcome comes about. In particular a retry of a review in writing goes on with the frozen answer, whether
  // that answer is sent along again or none is.
  lemma OutcomeSpec(c: Config, kb: Kb, reviews: seq<Review>, r: nat, answer: Option<string>)
    ensures OutcomeOf(c, kb, reviews, r, answer).Missing? <==> r >= |reviews|
    ensures r < |reviews| ==>
              var o, review := OutcomeOf(c, kb, reviews, r, answer), reviews[r];
              var open, writing := review.status == Q.Open, review.status == Q.Writing;
              var given := answer.Some? && !Blank(answer.value);
              var text := if open && answer.Some? then Strip(answer.value)
                          else if writing && review.answer.Some? then review.answer.value else "";
              var cuts := Shelf(kb, r) != [] || c.split(review.question, text) != [];
              && (o.WasRejected? <==> review.status == Q.Rejected)
              && (o.AlreadyPublished? <==> review.status == Q.Approved && !IsOtherAnswer(answer, review))
              && (o.AnswerIsFixed? <==> (review.status == Q.Approved || writing) && IsOtherAnswer(answer, review))
              && (o.NoAnswer? <==> open && !given)
              && (o.Frozen? <==> ((open && given) || (writing && !IsOtherAnswer(answer, review))) && cuts)
              && (o.Unsplittable? <==> ((open && given) || (writing && !IsOtherAnswer(answer, review))) && !cuts)
  {
    if answer.Some? {
      StripBlank(answer.value);
    }
  }

  // What freezing leaves: the answer it froze or had frozen, and the chunks that were there or now are.
  lemma FreezeSpec(c: Config, w: World, r: nat, answer: Option<string>)
    requires OutcomeOf(c, w.kb, w.tables.reviews, r, answer).Frozen?
    ensures r < |w.tables.reviews|
    ensures var w', review := AfterFreeze(c, w, r, answer), w.tables.reviews[r];
            var after := w'.tables.reviews[r];
            && w'.tables.reviews == w.tables.reviews[r := after] && w'.tables.questions == w.tables.questions
            && after == review.(status := Q.Writing, answer := after.answer, chunkIds := after.chunkIds)
            && (review.status == Q.Open ==> answer.Some? && after.answer == Some(Strip(answer.value)))
            && (review.status == Q.Writing && review.answer.Some? ==> after.answer == review.answer)
            && after.answer.Some? && after.chunkIds == IdSeq(Shelf(w'.kb, r))
            && (Shelf(w.kb, r) != [] ==> w'.kb == w.kb)
            && (Shelf(w.kb, r) == [] ==>
                  && w'.kb.vectors == w.kb.vectors
                  && w'.kb.rows == w.kb.rows + Inserted(ReviewDoc(r), c.split(review.question, after.answer.value),
                     w.kb.nextId))
  {
    OutcomeSpec(c, w.kb, w.tables.reviews, r, answer);
  }

  function FrozenReview(review: Review, answer: string, ids: seq<int>): Review {
    review.(answer := Some(answer), chunkIds := ids, status := Q.Writing)
  }

  function AfterFreeze(c: Config, w: World, r: nat, answer: Option<string>): World
    requires r < |w.tables.reviews|
  {
    var review := w.tables.reviews[r];
    var a := AnswerFor(review, answer);
    var kb := WithChunks(w.kb, r, c.split(review.question, a));
    w.(kb := kb, job := Publishing(r),
       tables := w.tables.(reviews := w.tables.reviews[r := FrozenReview(review, a, IdSeq(Shelf(kb, r)))]))
  }

  // One review of the replay transaction.
  function ReplayStep(c: Config, out: (Kb, seq<Review>), review: Review, r: nat): (Kb, seq<Review>)
    requires r < |out.1|
  {
    if !IsFrozen(review) then out
    else
      var kb := WithChunks(out.0, r, c.split(review.question, Given(review.answer)));
      (kb, out.1[r := review.(chunkIds := IdSeq(Shelf(kb, r)))])
  }

  // The replay transaction over the first n reviews.
  function ReplayTo(c: Config, kb: Kb, reviews: seq<Review>, n: nat): (out: (Kb, seq<Review>))
    requires n <= |reviews|
    ensures |out.1| == |reviews|
    ensures forall r :: n <= r < |reviews| ==> out.1[r] == reviews[r]
    ensures forall r :: 0 <= r < n ==> out.1[r] == reviews[r].(chunkIds := out.1[r].chunkIds)
  {
    if n == 0 then (kb, reviews) else ReplayStep(c, ReplayTo(c, kb, reviews, n - 1), reviews[n - 1], n - 1)
  }

  // Every frozen review has an answer that can be cut into chunks.
  predicate CanReplay(c: Config, reviews: seq<Review>) {
    forall r :: 0 <= r < |reviews| && IsFrozen(reviews[r]) ==>
      !Blank(Given(reviews[r].answer)) && c.split(reviews[r].question, Given(reviews[r].answer)) != []
  }

  // ---------------------------------------------------------------- one step

  predicate MayVectorize(job: Job) {
    job.Publishing? || job.Working? || job.Cleared? || job == Replayed(0)
  }

  // What may take the lock.
  predicate FirstStep(job: Job) {
    job.Approving? || job.ResetStarted? || job.Working? || job.Preflight?
  }

  // Transactions on the queue that take no job lock.
  predicate OnlyQueue(e: Q.Event) {
    !e.Freeze? && !e.Publish?
  }

  function Publish(t: Q.Tables, r: nat): Q.Tables
    requires r < |t.reviews|
  {
    t.(reviews := t.reviews[r := t.reviews[r].(status := Q.Approved)])
  }

  ghost function Next(c: Config, w: World, e: Event): World {
    match e
    case Queue(q) => if OnlyQueue(q) then w.(tables := Q.Next(w.tables, q, c.maxAttempts)) else w
    case Start(job) => if w.job.Idle? && FirstStep(job) then w.(job := job) else w
    case Vectorize(kb) =>
      if MayVectorize(w.job) && Vectorized(w.kb, kb) && kb.vectors <= Ids(w.kb.rows) then w.(kb := kb) else w
    case InsertDoc(name, texts) =>
      if (w.job.Working? || w.job.Cleared?) && RowsOf(w.kb.rows, Doc(name)) == []
      then w.(kb := Insert(w.kb, Inserted(Doc(name), texts, w.kb.nextId))) else w
    case InsertLoose(texts) => if w.job.Working? then w.(kb := Insert(w.kb, Loose(texts, w.kb.nextId))) else w
    case DeleteDocVectors =>
      if w.job.ResetStarted?
      then w.(kb := w.kb.(vectors := w.kb.vectors - DocIds(w.kb.rows)), job := ResetHalfway) else w
    case DeleteDocRows =>
      if w.job.ResetHalfway? then w.(kb := w.kb.(rows := WithoutDocs(w.kb.rows)), job := Working) else w
    case Freeze(answer) =>
      if w.job.Approving? && OutcomeOf(c, w.kb, w.tables.reviews, w.job.review, answer) == Frozen
      then AfterFreeze(c, w, w.job.review, answer) else w
    case Pass =>
      if w.job.Publishing? && w.job.review < |w.tables.reviews| && NoPending(Shelf(w.kb, w.job.review))
         && w.tables.reviews[w.job.review].status == Q.Writing
      then w.(tables := Publish(w.tables, w.job.review), job := Idle) else w
    case Begin => if w.job.Preflight? then w.(state := Rebuilding, job := Begun) else w
    case DropVectors => if w.job.Begun? then w.(kb := w.kb.(vectors := {}), job := Dropped) else w
    case ClearRows => if w.job.Dropped? then w.(kb := w.kb.(rows := []), job := Cleared) else w
    case Replay =>
      if w.job.Cleared? && CanReplay(c, w.tables.reviews) then
        var (kb, reviews) := ReplayTo(c, w.kb, w.tables.reviews, |w.tables.reviews|);
        w.(kb := kb, tables := w.tables.(reviews := reviews), job := Replayed(0))
      else w
    case Converge =>
      if !w.job.Replayed? || w.job.converged >= |w.tables.reviews| then w
      else
        var r := w.job.converged;
        if !IsFrozen(w.tables.reviews[r]) then w.(job := Replayed(r + 1))
        else if !NoPending(Shelf(w.kb, r)) then w
        else w.(tables := Publish(w.tables, r), job := Replayed(r + 1))
    case Finish =>
      if w.job.Replayed? && w.job.converged >= |w.tables.reviews| then w.(state := Ready, job := Idle) else w
    case Stop => w.(job := Idle, state := if InRebuild(w.job) then RebuildRequired else w.state)
  }

  predicate InRebuild(job: Job) {
    job.Begun? || job.Dropped? || job.Cleared? || job.Replayed?
  }

  ghost function Run(c: Config, w: World, events: seq<Event>): World {
    if events == [] then w
    else Next(c, Run(c, w, events[..|events| - 1]), events[|events| - 1])
  }

  // ---------------------------------------------------------------- invariant

  // A review's chunks exist only once it is frozen, are its question and answer cut up, and are the recorded ones.
  ghost predicate Filed(c: Config, review: Review, shelf: seq<Row>) {
    if IsFrozen(review) then
      && review.answer.Some? && !Blank(review.answer.value)
      && c.split(review.question, review.answer.value) != []
      && (shelf == []
          || (Texts(shelf, c.split(review.question, review.answer.value)) && IdSeq(shelf) == review.chunkIds))
    else shelf == []
  }

  ghost predicate AllFiled(c: Config, kb: Kb, reviews: seq<Review>) {
    && (forall r :: 0 <= r < |reviews| ==> Filed(c, reviews[r], Shelf(kb, r)))
    && (forall r: nat :: r >= |reviews| ==> Shelf(kb, r) == [])
  }

  predicate Complete(shelf: seq<Row>) {
    shelf != [] && NoPending(shelf)
  }

  // Done rows, documents aside, have their vectors.
  predicate Trusted(w: World) {
    w.state.Ready? || w.job.Cleared? || w.job.Replayed?
  }

  ghost predicate Published(kb: Kb, reviews: seq<Review>) {
    forall r :: 0 <= r < |reviews| && reviews[r].status == Q.Approved ==> Complete(Shelf(kb, r))
  }

  ghost predicate JobOk(w: World) {
    && (InRebuild(w.job) <==> w.state.Rebuilding?)
    && match w.job
       case Publishing(r) =>
         r < |w.tables.reviews| && w.tables.reviews[r].status == Q.Writing && Shelf(w.kb, r) != []
       case ResetHalfway => forall row :: row in w.kb.rows && row.source.Doc? ==> row.id !in w.kb.vectors
       case Dropped => w.kb.vectors == {}
       case Replayed(n) =>
         && (forall r :: 0 <= r < |w.tables.reviews| && IsFrozen(w.tables.reviews[r]) ==> Shelf(w.kb, r) != [])
         && (forall r :: 0 <= r < |w.tables.reviews| && r < n && IsFrozen(w.tables.reviews[r]) ==>
               NoPending(Shelf(w.kb, r)))
       case _ => true
  }

  ghost predicate Inv(c: Config, w: World) {
    && Sound(w.kb) && Q.Inv(w.tables, c.maxAttempts)
    && AllFiled(c, w.kb, w.tables.reviews)
    && (Trusted(w) ==> DoneHasVectorOutsideDocs(w.kb))
    && (w.state.Ready? ==> Published(w.kb, w.tables.reviews))
    && JobOk(w)
  }

  // ---------------------------------------------------------------- steps that leave the reviews' chunks in place

  ghost predicate ShelvesKept(a: Kb, b: Kb) {
    forall r: nat :: KeptRows(Shelf(a, r), Shelf(b, r))
  }

  lemma KeptShelf(a: seq<Row>, b: seq<Row>, c: Config, review: Review)
    requires KeptRows(a, b)
    ensures (a == [] <==> b == []) && (NoPending(a) ==> NoPending(b))
    ensures Filed(c, review, a) ==> Filed(c, review, b)
  {
    assert IdSeq(a) == IdSeq(b);
    if review.answer.Some? {
      SameLinksTexts(a, b, c.split(review.question, review.answer.value));
    }
  }

  lemma KeptAllFiled(c: Config, a: Kb, b: Kb, reviews: seq<Review>)
    requires ShelvesKept(a, b) && AllFiled(c, a, reviews)
    ensures AllFiled(c, b, reviews)
  {
    forall r | 0 <= r < |reviews| ensures Filed(c, reviews[r], Shelf(b, r)) {
      KeptShelf(Shelf(a, r), Shelf(b, r), c, reviews[r]);
    }
    forall r: nat | r >= |reviews| ensures Shelf(b, r) == [] {
      assert KeptRows(Shelf(a, r), Shelf(b, r));
    }
  }

  lemma KeptShapes(a: Kb, b: Kb)
    requires ShelvesKept(a, b)
    ensures forall r: nat ::
              (Shelf(a, r) == [] <==> Shelf(b, r) == []) && (NoPending(Shelf(a, r)) ==> NoPending(Shelf(b, r)))
  {
    forall r: nat
      ensures (Shelf(a, r) == [] <==> Shelf(b, r) == []) && (NoPending(Shelf(a, r)) ==> NoPending(Shelf(b, r)))
    {
      assert KeptRows(Shelf(a, r), Shelf(b, r));
    }
  }

  lemma KeptKeepsInv(c: Config, w: World, kb: Kb)
    requires Inv(c, w) && Sound(kb) && ShelvesKept(w.kb, kb)
    requires Trusted(w) ==> DoneHasVectorOutsideDocs(kb)
    requires !w.job.ResetHalfway? && !w.job.Dropped?
    ensures Inv(c, w.(kb := kb))
  {
    KeptAllFiled(c, w.kb, kb, w.tables.reviews);
    KeptShapes(w.kb, kb);
  }

  lemma VectorizedIsKept(a: Kb, b: Kb)
    requires Sound(a) && Vectorized(a, b) && b.vectors <= Ids(a.rows)
    ensures Sound(b) && ShelvesKept(a, b)
    ensures DoneHasVectorOutsideDocs(a) ==> DoneHasVectorOutsideDocs(b)
  {
    forall s: Source ensures SourceKept(a.rows, b.rows, s) {
      VectorizedSource(a.rows, b.rows, s);
    }
    forall r: nat ensures KeptRows(Shelf(a, r), Shelf(b, r)) {
      assert SourceKept(a.rows, b.rows, ReviewDoc(r));
    }
    VectorizedIsSound(a, b);
    if DoneHasVectorOutsideDocs(a) {
      VectorizedKeepsOutside(a, b);
    }
  }

  lemma VectorizedIsSound(a: Kb, b: Kb)
    requires Sound(a) && Vectorized(a, b) && b.vectors <= Ids(a.rows)
    requires forall s: Source :: SourceKept(a.rows, b.rows, s)
    ensures Sound(b)
  {
    assert forall i :: 0 <= i < |a.rows| ==> b.rows[i].id == a.rows[i].id;
    forall x | x in b.vectors ensures x in Ids(b.rows) {
      var i :| 0 <= i < |a.rows| && a.rows[i].id == x;
      assert b.rows[i].id == x;
    }
    forall s: Source | s != NoSource ensures Linked(RowsOf(b.rows, s)) {
      assert SourceKept(a.rows, b.rows, s);
      KeptIsLinked(RowsOf(a.rows, s), RowsOf(b.rows, s));
    }
  }

  lemma KeptIsLinked(a: seq<Row>, b: seq<Row>)
    requires KeptRows(a, b) && Linked(a)
    ensures Linked(b)
  {
    SameLinksChain(a, b);
    assert forall i :: 0 <= i < |a| ==> b[i].index == a[i].index;
  }

  lemma VectorizedKeepsOutside(a: Kb, b: Kb)
    requires Vectorized(a, b) && DoneHasVectorOutsideDocs(a)
    ensures DoneHasVectorOutsideDocs(b)
  {
    forall i | 0 <= i < |b.rows| && b.rows[i].done && !b.rows[i].source.Doc? ensures b.rows[i].id in b.vectors {
      assert b.rows[i] == a.rows[i].(done := b.rows[i].done);
    }
  }

  lemma InsertLeavesShelves(kb: Kb, more: seq<Row>, t: Source)
    requires !t.ReviewDoc? && forall i :: 0 <= i < |more| ==> more[i].source == t
    ensures ShelvesKept(kb, Insert(kb, more))
  {
    forall r: nat ensures Shelf(Insert(kb, more), r) == Shelf(kb, r) {
      RowsOfConcat(kb.rows, more, ReviewDoc(r));
      RowsOfUniform(more, t, ReviewDoc(r));
      assert Shelf(kb, r) + [] == Shelf(kb, r);
    }
  }

  lemma InsertKeepsOutside(kb: Kb, more: seq<Row>)
    requires DoneHasVectorOutsideDocs(kb) && forall i :: 0 <= i < |more| ==> !more[i].done
    ensures DoneHasVectorOutsideDocs(Insert(kb, more))
  {
  }

  lemma InsertDocKeepsInv(c: Config, w: World, name: string, texts: seq<string>)
    requires Inv(c, w) && (w.job.Working? || w.job.Cleared?) && RowsOf(w.kb.rows, Doc(name)) == []
    ensures Inv(c, w.(kb := Insert(w.kb, Inserted(Doc(name), texts, w.kb.nextId))))
  {
    var more := Inserted(Doc(name), texts, w.kb.nextId);
    InsertDocumentIsSound(w.kb, Document(name, texts));
    InsertLeavesShelves(w.kb, more, Doc(name));
    if Trusted(w) {
      InsertKeepsOutside(w.kb, more);
    }
    KeptKeepsInv(c, w, Insert(w.kb, more));
  }

  lemma InsertLooseKeepsInv(c: Config, w: World, texts: seq<string>)
    requires Inv(c, w) && w.job.Working?
    ensures Inv(c, w.(kb := Insert(w.kb, Loose(texts, w.kb.nextId))))
  {
    var more := Loose(texts, w.kb.nextId);
    InsertKeepsSound(w.kb, more, NoSource);
    InsertLeavesShelves(w.kb, more, NoSource);
    if Trusted(w) {
      InsertKeepsOutside(w.kb, more);
    }
    KeptKeepsInv(c, w, Insert(w.kb, more));
  }

  lemma DeleteDocVectorsKeepsInv(c: Config, w: World)
    requires Inv(c, w) && w.job.ResetStarted?
    ensures Inv(c, Next(c, w, DeleteDocVectors))
  {
    var kb := w.kb.(vectors := w.kb.vectors - DocIds(w.kb.rows));
    DropVectorsFacts(w.kb);
    KeptKeepsInv(c, w, kb);
  }

  lemma DeleteDocRowsKeepsInv(c: Config, w: World)
    requires Inv(c, w) && w.job.ResetHalfway?
    ensures Inv(c, Next(c, w, DeleteDocRows))
  {
    var kb := w.kb.(rows := WithoutDocs(w.kb.rows));
    DropRowsFacts(w.kb);
    DropRowsLeavesShelves(w.kb);
    HalfwayToWorking(c, w);
    KeptKeepsInv(c, w.(job := Working), kb);
  }

  lemma HalfwayToWorking(c: Config, w: World)
    requires Inv(c, w) && w.job.ResetHalfway?
    ensures Inv(c, w.(job := Working))
  {
  }

  lemma DropRowsLeavesShelves(kb: Kb)
    ensures ShelvesKept(kb, kb.(rows := WithoutDocs(kb.rows)))
  {
    forall r: nat ensures KeptRows(Shelf(kb, r), RowsOf(WithoutDocs(kb.rows), ReviewDoc(r))) {
      RowsOfWithoutDocs(kb.rows, ReviewDoc(r));
    }
  }

  // ---------------------------------------------------------------- freezing keeps the invariant

  lemma WithChunksFacts(kb: Kb, r: nat, texts: seq<string>)
    requires Sound(kb) && (Shelf(kb, r) != [] || texts != [])
    ensures var kb' := WithChunks(kb, r, texts);
            && Sound(kb') && Shelf(kb', r) != []
            && (Shelf(kb, r) == [] ==> Texts(Shelf(kb', r), texts))
            && (Shelf(kb, r) != [] ==> kb' == kb)
            && (DoneHasVectorOutsideDocs(kb) ==> DoneHasVectorOutsideDocs(kb'))
  {
    if Shelf(kb, r) == [] {
      var more := Inserted(ReviewDoc(r), texts, kb.nextId);
      InsertedIsLinked(ReviewDoc(r), texts, kb.nextId);
      InsertKeepsSound(kb, more, ReviewDoc(r));
      InsertedRowsOf(kb.rows, ReviewDoc(r), more);
    }
  }

  lemma WithChunksElsewhere(kb: Kb, r: nat, texts: seq<string>)
    ensures forall k: nat :: k != r ==> Shelf(WithChunks(kb, r, texts), k) == Shelf(kb, k)
  {
    if Shelf(kb, r) == [] {
      var more := Inserted(ReviewDoc(r), texts, kb.nextId);
      forall k: nat | k != r ensures Shelf(Insert(kb, more), k) == Shelf(kb, k) {
        RowsOfConcat(kb.rows, more, ReviewDoc(k));
        RowsOfUniform(more, ReviewDoc(r), ReviewDoc(k));
        assert Shelf(kb, k) + [] == Shelf(kb, k);
      }
    }
  }

  // Reviews that differ only in what freezing and passing write are counted alike.
  lemma SameCountsInv(t: Q.Tables, reviews: seq<Review>, maxAttempts: nat)
    requires Q.Inv(t, maxAttempts) && |reviews| == |t.reviews|
    requires forall r :: 0 <= r < |reviews| ==> reviews[r].occurrences == t.reviews[r].occurrences
    ensures Q.Inv(t.(reviews := reviews), maxAttempts)
  {
  }

  // The freezing transaction files the review.
  lemma FreezeFiles(c: Config, kb: Kb, reviews: seq<Review>, r: nat, answer: Option<string>)
    requires Sound(kb) && r < |reviews| && Filed(c, reviews[r], Shelf(kb, r))
    requires OutcomeOf(c, kb, reviews, r, answer) == Frozen
    ensures var a := AnswerFor(reviews[r], answer);
            var kb' := WithChunks(kb, r, c.split(reviews[r].question, a));
            && Sound(kb') && Shelf(kb', r) != [] && (DoneHasVectorOutsideDocs(kb) ==> DoneHasVectorOutsideDocs(kb'))
            && Filed(c, FrozenReview(reviews[r], a, IdSeq(Shelf(kb', r))), Shelf(kb', r))
  {
    WithChunksFacts(kb, r, c.split(reviews[r].question, AnswerFor(reviews[r], answer)));
    StripBlank(Given(answer));
  }

  lemma FreezeKeepsInv(c: Config, w: World, answer: Option<string>)
    requires Inv(c, w) && w.job.Approving?
    requires OutcomeOf(c, w.kb, w.tables.reviews, w.job.review, answer) == Frozen
    ensures Inv(c, AfterFreeze(c, w, w.job.review, answer))
  {
    var reviews, r := w.tables.reviews, w.job.review;
    FreezeFiles(c, w.kb, reviews, r, answer);
    WithChunksElsewhere(w.kb, r, c.split(reviews[r].question, AnswerFor(reviews[r], answer)));
    var w' := AfterFreeze(c, w, r, answer);
    SameCountsInv(w.tables, w'.tables.reviews, c.maxAttempts);
    FreezeAllFiled(c, w, r, answer);
  }

  lemma FreezeAllFiled(c: Config, w: World, r: nat, answer: Option<string>)
    requires AllFiled(c, w.kb, w.tables.reviews) && Sound(w.kb)
    requires OutcomeOf(c, w.kb, w.tables.reviews, r, answer) == Frozen
    ensures AllFiled(c, AfterFreeze(c, w, r, answer).kb, AfterFreeze(c, w, r, answer).tables.reviews)
  {
    FreezeFiles(c, w.kb, w.tables.reviews, r, answer);
    WithChunksElsewhere(w.kb, r, c.split(w.tables.reviews[r].question, AnswerFor(w.tables.reviews[r], answer)));
  }

  // ---------------------------------------------------------------- replaying keeps the invariant

  ghost predicate FiledAgain(c: Config, review: Review, shelf: seq<Row>) {
    Filed(c, review, shelf) && (IsFrozen(review) ==> shelf != [])
  }

  ghost predicate ReplayedTo(c: Config, kb: Kb, out: (Kb, seq<Review>), n: nat) {
    && Sound(out.0) && (DoneHasVectorOutsideDocs(kb) ==> DoneHasVectorOutsideDocs(out.0)) && n <= |out.1|
    && (forall r :: 0 <= r < n ==> FiledAgain(c, out.1[r], Shelf(out.0, r)))
    && (forall r: nat :: r >= n ==> Shelf(out.0, r) == Shelf(kb, r))
  }

  lemma {:induction false} ReplayFacts(c: Config, kb: Kb, reviews: seq<Review>, n: nat)
    requires Sound(kb) && AllFiled(c, kb, reviews) && n <= |reviews|
    ensures ReplayedTo(c, kb, ReplayTo(c, kb, reviews, n), n)
  {
    if n == 0 {
      ReplayNone(c, kb, reviews);
    } else {
      var before := ReplayTo(c, kb, reviews, n - 1);
      ReplayFacts(c, kb, reviews, n - 1);
      ReplayOne(c, kb, before, reviews[n - 1], n - 1);
      ReplayUnfolds(c, kb, reviews, n);
    }
  }

  lemma ReplayNone(c: Config, kb: Kb, reviews: seq<Review>)
    requires Sound(kb)
    ensures ReplayedTo(c, kb, ReplayTo(c, kb, reviews, 0), 0)
  {
    assert ReplayTo(c, kb, reviews, 0) == (kb, reviews);
  }

  lemma ReplayUnfolds(c: Config, kb: Kb, reviews: seq<Review>, n: nat)
    requires 0 < n <= |reviews|
    ensures ReplayTo(c, kb, reviews, n) == ReplayStep(c, ReplayTo(c, kb, reviews, n - 1), reviews[n - 1], n - 1)
  {
  }

  lemma ReplayOne(c: Config, kb: Kb, before: (Kb, seq<Review>), review: Review, r: nat)
    requires ReplayedTo(c, kb, before, r) && r < |before.1| && before.1[r] == review
    requires Filed(c, review, Shelf(kb, r))
    ensures ReplayedTo(c, kb, ReplayStep(c, before, review, r), r + 1)
  {
    if IsFrozen(review) {
      var kb' := WithChunks(before.0, r, c.split(review.question, Given(review.answer)));
      Refreeze(c, before.0, r, review);
      ReplayFrozen(c, kb, before, kb', review.(chunkIds := IdSeq(Shelf(kb', r))), r);
    } else {
      assert FiledAgain(c, before.1[r], Shelf(before.0, r));
    }
  }

  lemma ReplayFrozen(c: Config, kb: Kb, before: (Kb, seq<Review>), after: Kb, review: Review, r: nat)
    requires ReplayedTo(c, kb, before, r) && r < |before.1|
    requires Sound(after) && (DoneHasVectorOutsideDocs(before.0) ==> DoneHasVectorOutsideDocs(after))
    requires FiledAgain(c, review, Shelf(after, r))
    requires forall k: nat :: k != r ==> Shelf(after, k) == Shelf(before.0, k)
    ensures ReplayedTo(c, kb, (after, before.1[r := review]), r + 1)
  {
    var out := before.1[r := review];
    forall k | 0 <= k <= r ensures FiledAgain(c, out[k], Shelf(after, k)) {
      assert k < r ==> FiledAgain(c, before.1[k], Shelf(before.0, k));
    }
  }

  lemma Refreeze(c: Config, kb: Kb, r: nat, review: Review)
    requires Sound(kb) && IsFrozen(review) && Filed(c, review, Shelf(kb, r))
    ensures var kb' := WithChunks(kb, r, c.split(review.question, Given(review.answer)));
            && Sound(kb') && (DoneHasVectorOutsideDocs(kb) ==> DoneHasVectorOutsideDocs(kb'))
            && FiledAgain(c, review.(chunkIds := IdSeq(Shelf(kb', r))), Shelf(kb', r))
            && forall k: nat :: k != r ==> Shelf(kb', k) == Shelf(kb, k)
  {
    var texts := c.split(review.question, Given(review.answer));
    WithChunksFacts(kb, r, texts);
    WithChunksElsewhere(kb, r, texts);
    Refiled(c, review, Shelf(kb, r), Shelf(WithChunks(kb, r, texts), r));
  }

  // A frozen review filed again, with its old chunks or with new ones.
  lemma Refiled(c: Config, review: Review, was: seq<Row>, now: seq<Row>)
    requires IsFrozen(review) && Filed(c, review, was) && now != []
    requires if was == [] then Texts(now, c.split(review.question, Given(review.answer))) else now == was
    ensures Filed(c, review.(chunkIds := IdSeq(now)), now)
  {
  }

  lemma ReplayKeepsInv(c: Config, w: World)
    requires Inv(c, w) && w.job.Cleared?
    ensures Inv(c, Next(c, w, Replay))
  {
    var reviews := w.tables.reviews;
    ReplayFacts(c, w.kb, reviews, |reviews|);
    var (kb, out) := ReplayTo(c, w.kb, reviews, |reviews|);
    SameCountsInv(w.tables, out, c.maxAttempts);
    forall r | 0 <= r < |out| ensures Filed(c, out[r], Shelf(kb, r)) && (IsFrozen(out[r]) ==> Shelf(kb, r) != []) {
      assert FiledAgain(c, out[r], Shelf(kb, r));
    }
  }

  // ---------------------------------------------------------------- passing and queue transactions

  lemma PublishKeepsInv(c: Config, w: World, r: nat)
    requires Inv(c, w) && r < |w.tables.reviews| && IsFrozen(w.tables.reviews[r]) && NoPending(Shelf(w.kb, r))
    requires w.job == Publishing(r) || w.job == Replayed(r)
    ensures Inv(c, w.(tables := Publish(w.tables, r), job := if w.job.Publishing? then Idle else Replayed(r + 1)))
  {
    SameCountsInv(w.tables, Publish(w.tables, r).reviews, c.maxAttempts);
  }

  lemma ClearKeepsInv(c: Config, w: World)
    requires Inv(c, w) && w.job.Dropped?
    ensures Inv(c, Next(c, w, ClearRows))
  {
    var kb := w.kb.(rows := []);
    assert forall s: Source :: RowsOf(kb.rows, s) == [];
    assert forall r: nat :: Shelf(kb, r) == [];
  }

  lemma QueueKeepsInv(c: Config, w: World, e: Q.Event)
    requires Inv(c, w) && OnlyQueue(e) && 1 <= c.maxAttempts
    ensures Inv(c, w.(tables := Q.Next(w.tables, e, c.maxAttempts)))
  {
    var tables := Q.Next(w.tables, e, c.maxAttempts);
    Q.StepKeepsInv(w.tables, e, c.maxAttempts);
    QueueLeavesFrozen(w.tables, e, c.maxAttempts);
    forall r | 0 <= r < |tables.reviews| ensures Filed(c, tables.reviews[r], Shelf(w.kb, r)) {
      if r < |w.tables.reviews| {
        assert Filed(c, w.tables.reviews[r], Shelf(w.kb, r));
      }
    }
  }

  // The queue's own transactions neither freeze nor publish, and leave frozen reviews as they are.
  lemma QueueLeavesFrozen(t: Q.Tables, e: Q.Event, maxAttempts: nat)
    requires OnlyQueue(e)
    ensures var t' := Q.Next(t, e, maxAttempts);
            && |t.reviews| <= |t'.reviews|
            && (forall r :: 0 <= r < |t.reviews| && IsFrozen(t.reviews[r]) ==> t'.reviews[r] == t.reviews[r])
            && (forall r :: 0 <= r < |t'.reviews| && IsFrozen(t'.reviews[r]) ==>
                r < |t.reviews| && IsFrozen(t.reviews[r]))
  {
  }

  // ---------------------------------------------------------------- what the knowledge jobs bring about

  // A reset deletes what documents have, vectors first, and leaves the store to ingestion.
  lemma ResetRuns(c: Config, w: World)
    requires w.job.Idle?
    ensures var deleted := Next(c, Next(c, w, Start(ResetStarted)), DeleteDocVectors);
            var reset := Next(c, deleted, DeleteDocRows);
            && deleted == w.(kb := w.kb.(vectors := w.kb.vectors - DocIds(w.kb.rows)), job := ResetHalfway)
            && reset == w.(kb := deleted.kb.(rows := WithoutDocs(w.kb.rows)), job := Working)
            && Next(c, reset, Stop) == reset.(job := Idle)
  {
  }

  // Then, or into cleared tables, a document that has no rows is taken in.
  lemma DocumentsArrive(c: Config, w: World, name: string, texts: seq<string>)
    requires w.job.Working? || w.job.Cleared?
    ensures RowsOf(w.kb.rows, Doc(name)) == [] ==>
              Next(c, w, InsertDoc(name, texts)) == w.(kb := Insert(w.kb, Inserted(Doc(name), texts, w.kb.nextId)))
    ensures RowsOf(WithoutDocs(w.kb.rows), Doc(name)) == [] && RowsOf([], Doc(name)) == []
  {
    RowsOfWithoutDocs(w.kb.rows, Doc(name));
  }

  // A rebuild empties both stores and, once everything is converged, is ready again (ConvergedIsReady).
  lemma RebuildRuns(c: Config, w: World)
    requires w.job.Idle?
    ensures var begun := Next(c, Next(c, w, Start(Preflight)), Begin);
            var cleared := Next(c, Next(c, begun, DropVectors), ClearRows);
            && begun == w.(state := Rebuilding, job := Begun)
            && cleared == World(Kb([], {}, w.kb.nextId), w.tables, Rebuilding, Cleared)
            && Next(c, cleared, Stop) == cleared.(state := RebuildRequired, job := Idle)
            && (CanReplay(c, w.tables.reviews) ==> Next(c, cleared, Replay).job == Replayed(0))
  {
  }

  lemma ConvergedIsReady(c: Config, w: World)
    requires w.job == Replayed(|w.tables.reviews|)
    ensures Next(c, w, Finish) == w.(state := Ready, job := Idle)
  {
  }

  // Other jobs insert chunks without a source, all pending.
  lemma LooseChunksArrive(c: Config, w: World, texts: seq<string>)
    requires w.job.Idle?
    ensures var working := Next(c, w, Start(Working));
            Next(c, working, InsertLoose(texts)).kb.rows == w.kb.rows + Loose(texts, w.kb.nextId)
  {
  }

  // ---------------------------------------------------------------- every step

  lemma StepKeepsInv(c: Config, w: World, e: Event)
    requires Inv(c, w) && 1 <= c.maxAttempts
    ensures Inv(c, Next(c, w, e))
  {
    match e
    case Queue(q) => if OnlyQueue(q) { QueueKeepsInv(c, w, q); }
    case Vectorize(kb) =>
      if MayVectorize(w.job) && Vectorized(w.kb, kb) && kb.vectors <= Ids(w.kb.rows) {
        VectorizedIsKept(w.kb, kb);
        KeptKeepsInv(c, w, kb);
      }
    case InsertDoc(name, texts) =>
      if (w.job.Working? || w.job.Cleared?) && RowsOf(w.kb.rows, Doc(name)) == [] {
        InsertDocKeepsInv(c, w, name, texts);
      }
    case InsertLoose(texts) => if w.job.Working? { InsertLooseKeepsInv(c, w, texts); }
    case DeleteDocVectors => if w.job.ResetStarted? { DeleteDocVectorsKeepsInv(c, w); }
    case DeleteDocRows => if w.job.ResetHalfway? { DeleteDocRowsKeepsInv(c, w); }
    case Freeze(answer) =>
      if w.job.Approving? && OutcomeOf(c, w.kb, w.tables.reviews, w.job.review, answer) == Frozen {
        FreezeKeepsInv(c, w, answer);
      }
    case Pass =>
      if w.job.Publishing? && NoPending(Shelf(w.kb, w.job.review)) { PublishKeepsInv(c, w, w.job.review); }
    case ClearRows => if w.job.Dropped? { ClearKeepsInv(c, w); }
    case Replay => if w.job.Cleared? { ReplayKeepsInv(c, w); }
    case Converge => ConvergeKeepsInv(c, w);
    case Finish => FinishKeepsInv(c, w);
    case DropVectors => DropVectorsKeepsInv(c, w);
    case _ => JobStepKeepsInv(c, w, e);
  }

  lemma SkipJobOk(w: World)
    requires JobOk(w) && w.job.Replayed? && w.job.converged < |w.tables.reviews|
    requires !IsFrozen(w.tables.reviews[w.job.converged])
    ensures JobOk(w.(job := Replayed(w.job.converged + 1)))
  {
  }

  lemma SkipKeepsInv(c: Config, w: World)
    requires Inv(c, w) && w.job.Replayed? && w.job.converged < |w.tables.reviews|
    requires !IsFrozen(w.tables.reviews[w.job.converged])
    ensures Inv(c, w.(job := Replayed(w.job.converged + 1)))
  {
    SkipJobOk(w);
  }

  lemma ConvergeKeepsInv(c: Config, w: World)
    requires Inv(c, w)
    ensures Inv(c, Next(c, w, Converge))
  {
    if w.job.Replayed? && w.job.converged < |w.tables.reviews| {
      if !IsFrozen(w.tables.reviews[w.job.converged]) {
        SkipKeepsInv(c, w);
      } else if NoPending(Shelf(w.kb, w.job.converged)) {
        PublishKeepsInv(c, w, w.job.converged);
      }
    }
  }

  lemma FinishKeepsInv(c: Config, w: World)
    requires Inv(c, w)
    ensures Inv(c, Next(c, w, Finish))
  {
    if w.job.Replayed? && w.job.converged >= |w.tables.reviews| {
      forall r | 0 <= r < |w.tables.reviews| && w.tables.reviews[r].status == Q.Approved
        ensures Complete(Shelf(w.kb, r))
      {
        assert IsFrozen(w.tables.reviews[r]);
      }
    }
  }

  lemma DropVectorsKeepsInv(c: Config, w: World)
    requires Inv(c, w)
    ensures Inv(c, Next(c, w, DropVectors))
  {
    var kb := w.kb.(vectors := {});
    assert forall r: nat :: Shelf(kb, r) == Shelf(w.kb, r);
  }

  lemma JobStepKeepsInv(c: Config, w: World, e: Event)
    requires Inv(c, w) && (e.Start? || e.Begin? || e.Stop?)
    ensures Inv(c, Next(c, w, e))
  {
  }

  // ---------------------------------------------------------------- what later states keep

  lemma PublishKeeps(t: Q.Tables, r: nat)
    requires r < |t.reviews| && t.reviews[r].status == Q.Writing
    ensures Q.Keeps(t, Publish(t, r)) && Q.Steps(t, Publish(t, r))
  {
  }

  lemma FreezeKeeps(c: Config, w: World, r: nat, answer: Option<string>)
    requires Inv(c, w) && r < |w.tables.reviews|
    requires OutcomeOf(c, w.kb, w.tables.reviews, r, answer) == Frozen
    ensures var t' := AfterFreeze(c, w, r, answer).tables;
            Q.Keeps(w.tables, t') && Q.Steps(w.tables, t')
  {
  }

  lemma ReplayKeeps(c: Config, kb: Kb, t: Q.Tables)
    ensures var t' := t.(reviews := ReplayTo(c, kb, t.reviews, |t.reviews|).1);
            Q.Keeps(t, t') && Q.Steps(t, t')
  {
  }

  lemma StepKeeps(c: Config, w: World, e: Event)
    requires Inv(c, w) && 1 <= c.maxAttempts
    ensures Q.Keeps(w.tables, Next(c, w, e).tables) && Q.Steps(w.tables, Next(c, w, e).tables)
  {
    match e
    case Queue(q) => if OnlyQueue(q) { Q.StepKeeps(w.tables, q, c.maxAttempts); }
    case Freeze(answer) =>
      if w.job.Approving? && OutcomeOf(c, w.kb, w.tables.reviews, w.job.review, answer) == Frozen {
        FreezeKeeps(c, w, w.job.review, answer);
      }
    case Pass =>
      if w.job.Publishing? && w.job.review < |w.tables.reviews| && w.tables.reviews[w.job.review].status == Q.Writing {
        PublishKeeps(w.tables, w.job.review);
      }
    case Replay => ReplayKeeps(c, w.kb, w.tables);
    case Converge => ConvergeKeeps(c, w);
    case _ => assert Next(c, w, e).tables == w.tables;
  }

  lemma ConvergeKeeps(c: Config, w: World)
    ensures Q.Keeps(w.tables, Next(c, w, Converge).tables) && Q.Steps(w.tables, Next(c, w, Converge).tables)
  {
    if w.job.Replayed? && w.job.converged < |w.tables.reviews|
        && w.tables.reviews[w.job.converged].status == Q.Writing {
      PublishKeeps(w.tables, w.job.converged);
    }
  }

  // Main result, for every interleaving of approvals with their failures and retries, rejections, resets, rebuilds
  // with replay, other knowledge jobs and queue merges: the invariant holds in every state, statuses only move
  // forward, and a frozen answer never changes.
  lemma {:induction false} PublicationSafety(c: Config, w: World, events: seq<Event>)
    requires Inv(c, w) && 1 <= c.maxAttempts
    ensures Inv(c, Run(c, w, events))
    ensures Q.Keeps(w.tables, Run(c, w, events).tables)
  {
    if events != [] {
      var n := |events| - 1;
      var mid := Run(c, w, events[..n]);
      PublicationSafety(c, w, events[..n]);
      StepKeepsInv(c, mid, events[n]);
      StepKeeps(c, mid, events[n]);
      Q.KeepsTransitively(w.tables, mid.tables, Next(c, mid, events[n]).tables);
    }
  }

  // An approved review is served in full: its chunks are its question and answer cut up, in order, each one done and
  // in the vector store, under the recorded ids; and a review that was never frozen has no chunks.
  ghost predicate Served(c: Config, review: Review, shelf: seq<Row>, vectors: set<int>) {
    && (!IsFrozen(review) ==> shelf == [])
    && (review.status == Q.Approved ==>
          && review.answer.Some? && shelf != []
          && Texts(shelf, c.split(review.question, review.answer.value))
          && IdSeq(shelf) == review.chunkIds
          && forall i :: 0 <= i < |shelf| ==> shelf[i].done && shelf[i].id in vectors)
  }

  // Whenever the state is READY, in every interleaving.
  lemma ReadyMeansServed(c: Config, w: World, events: seq<Event>, r: nat)
    requires Inv(c, w) && 1 <= c.maxAttempts
    ensures var w' := Run(c, w, events);
            w'.state.Ready? && r < |w'.tables.reviews| ==>
                Served(c, w'.tables.reviews[r], Shelf(w'.kb, r), w'.kb.vectors)
  {
    PublicationSafety(c, w, events);
    var w' := Run(c, w, events);
    if w'.state.Ready? && r < |w'.tables.reviews| {
      var shelf := Shelf(w'.kb, r);
      assert Filed(c, w'.tables.reviews[r], shelf);
      RowsOfMembers(w'.kb.rows, ReviewDoc(r));
      forall i | 0 <= i < |shelf| && shelf[i].done ensures shelf[i].id in w'.kb.vectors {
        assert shelf[i] in shelf;
      }
    }
  }
}
