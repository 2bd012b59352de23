/** The two-phase double write (app/knowledge/ingest.py) and the selective reset (app/services/kb_admin.py), with a
    stop possible at every commit and every upsert. A stop may hit between the vectors and the marks of a batch, after
    any document, or between the two deletions of a reset. */
module Ingest {
  import opened Basics
  import opened KnowledgeRows

  // chunks is empty when the file cannot be chunked.
  datatype Document = Document(name: string, chunks: seq<string>)

  // How many more commits and upserts succeed before the process stops or the store fails.
  datatype Stop = Never | After(steps: nat)

  predicate Goes(stop: Stop) {
    stop.Never? || stop.steps > 0
  }

  function Spent(stop: Stop): Stop
    requires Goes(stop)
  {
    if stop.Never? then Never else After(stop.steps - 1)
  }

  // ---------------------------------------------------------------- pointer check

  function InsertByIndex(r: Row, rs: seq<Row>): (out: seq<Row>)
    ensures |out| == |rs| + 1
  {
    if rs == [] || rs[|rs| - 1].index <= r.index then rs + [r]
    else InsertByIndex(r, rs[..|rs| - 1]) + [rs[|rs| - 1]]
  }

  function SortByIndex(rs: seq<Row>): (out: seq<Row>)
    ensures |out| == |rs|
  {
    if rs == [] then [] else InsertByIndex(rs[|rs| - 1], SortByIndex(rs[..|rs| - 1]))
  }

  lemma {:induction false} LinkedIsSorted(rs: seq<Row>)
    requires forall i :: 0 <= i < |rs| ==> rs[i].index == i + 1
    ensures SortByIndex(rs) == rs
  {
    if rs != [] {
      LinkedIsSorted(rs[..|rs| - 1]);
    }
  }

  ghost predicate ByIndex(rs: seq<Row>) {
    forall i, j :: 0 <= i < j < |rs| ==> rs[i].index <= rs[j].index
  }

  ghost predicate UpTo(rs: seq<Row>, index: nat) {
    forall i :: 0 <= i < |rs| ==> rs[i].index <= index
  }

  lemma {:induction false} InsertAdds(r: Row, rs: seq<Row>)
    ensures multiset(InsertByIndex(r, rs)) == multiset(rs) + multiset{r}
  {
    if rs != [] && rs[|rs| - 1].index > r.index {
      InsertAdds(r, rs[..|rs| - 1]);
      assert rs == rs[..|rs| - 1] + [rs[|rs| - 1]];
    }
  }

  lemma {:induction false} InsertKeepsOrder(r: Row, rs: seq<Row>)
    requires ByIndex(rs)
    ensures ByIndex(InsertByIndex(r, rs))
    ensures forall n: nat :: r.index <= n && UpTo(rs, n) ==> UpTo(InsertByIndex(r, rs), n)
  {
    if rs != [] && rs[|rs| - 1].index > r.index {
      InsertKeepsOrder(r, rs[..|rs| - 1]);
      assert UpTo(rs[..|rs| - 1], rs[|rs| - 1].index);
      forall n: nat | r.index <= n && UpTo(rs, n) ensures UpTo(InsertByIndex(r, rs), n) {
        assert UpTo(rs[..|rs| - 1], n);
      }
    }
  }

  // The check reads the rows of a document by their index.
  lemma {:induction false} SortSorts(rs: seq<Row>)
    ensures multiset(SortByIndex(rs)) == multiset(rs) && ByIndex(SortByIndex(rs))
  {
    if rs != [] {
      SortSorts(rs[..|rs| - 1]);
      InsertAdds(rs[|rs| - 1], SortByIndex(rs[..|rs| - 1]));
      InsertKeepsOrder(rs[|rs| - 1], SortByIndex(rs[..|rs| - 1]));
      assert rs == rs[..|rs| - 1] + [rs[|rs| - 1]];
    }
  }

  ghost predicate PointersOk(rows: seq<Row>) {
    forall i :: 0 <= i < |rows| && rows[i].source != NoSource ==> Chain(SortByIndex(RowsOf(rows, rows[i].source)))
  }

  lemma SoundPointersOk(kb: Kb)
    requires Sound(kb)
    ensures PointersOk(kb.rows)
  {
    forall i | 0 <= i < |kb.rows| && kb.rows[i].source != NoSource
      ensures Chain(SortByIndex(RowsOf(kb.rows, kb.rows[i].source)))
    {
      LinkedIsSorted(RowsOf(kb.rows, kb.rows[i].source));
    }
  }

  // ---------------------------------------------------------------- what vectorizing may change

  function CountPending(rows: seq<Row>): nat {
    if rows == [] then 0
    else CountPending(rows[..|rows| - 1]) + if rows[|rows| - 1].done then 0 else 1
  }

  lemma {:induction false} CountPendingDrops(a: seq<Row>, b: seq<Row>)
    requires |a| == |b| && forall i :: 0 <= i < |a| ==> (a[i].done ==> b[i].done)
    ensures CountPending(b) <= CountPending(a)
    ensures (exists i :: 0 <= i < |a| && !a[i].done && b[i].done) ==> CountPending(b) < CountPending(a)
  {
    if a != [] {
      CountPendingDrops(a[..|a| - 1], b[..|b| - 1]);
      if i :| 0 <= i < |a| && !a[i].done && b[i].done {
        assert i < |a| - 1 ==> !a[..|a| - 1][i].done && b[..|b| - 1][i].done;
      }
    }
  }

  ghost predicate PendingIds(rows: seq<Row>, batch: set<int>) {
    forall x :: x in batch ==> exists i :: 0 <= i < |rows| && rows[i].id == x && !rows[i].done
  }

  // Vectorizing only turns pending rows into done ones, and gives those their vectors.
  ghost predicate Vectorized(a: Kb, b: Kb) {
    && b.nextId == a.nextId && SameLinks(a.rows, b.rows) && a.vectors <= b.vectors
    && forall i :: 0 <= i < |a.rows| ==>
         && (a.rows[i].done ==> b.rows[i].done)
         && (!a.rows[i].done && b.rows[i].done ==> b.rows[i].id in b.vectors)
         && (a.rows[i].done && a.rows[i].id !in a.vectors ==> a.rows[i].id !in b.vectors)
  }

  lemma NothingVectorized(kb: Kb)
    requires kb.vectors <= Ids(kb.rows)
    ensures Vectorized(kb, kb)
  {
  }

  lemma VectorizedTransitively(a: Kb, b: Kb, c: Kb)
    requires Vectorized(a, b) && Vectorized(b, c)
    ensures Vectorized(a, c)
  {
    forall i | 0 <= i < |a.rows|
      ensures c.rows[i] == a.rows[i].(done := c.rows[i].done)
      ensures a.rows[i].done ==> c.rows[i].done
      ensures !a.rows[i].done && c.rows[i].done ==> c.rows[i].id in c.vectors
      ensures a.rows[i].done && a.rows[i].id !in a.vectors ==> a.rows[i].id !in c.vectors
    {
      assert b.rows[i] == a.rows[i].(done := b.rows[i].done);
      assert c.rows[i] == b.rows[i].(done := c.rows[i].done);
    }
  }

  // Rows of one source as far as vectorizing and loading other documents can change them: pending ones become done.
  ghost predicate KeptRows(a: seq<Row>, b: seq<Row>) {
    SameLinks(a, b) && forall i :: 0 <= i < |a| ==> (a[i].done ==> b[i].done)
  }

  ghost predicate SourceKept(a: seq<Row>, b: seq<Row>, s: Source) {
    KeptRows(RowsOf(a, s), RowsOf(b, s))
  }

  lemma {:induction false} VectorizedSource(a: seq<Row>, b: seq<Row>, s: Source)
    requires KeptRows(a, b)
    ensures SourceKept(a, b, s)
  {
    if a != [] {
      VectorizedSource(a[..|a| - 1], b[..|b| - 1], s);
    }
  }

  lemma SameLinksTexts(a: seq<Row>, b: seq<Row>, texts: seq<string>)
    requires SameLinks(a, b)
    ensures Texts(a, texts) <==> Texts(b, texts)
  {
    assert forall i :: 0 <= i < |a| ==> b[i].text == a[i].text;
  }

  ghost predicate Compatible(rows: seq<Row>, docs: seq<Document>) {
    forall k :: 0 <= k < |docs| ==> Loadable(rows, docs[k])
  }

  // The file can be chunked and is new or unchanged.
  ghost predicate Loadable(rows: seq<Row>, d: Document) {
    d.chunks != [] && (RowsOf(rows, Doc(d.name)) == [] || Texts(RowsOf(rows, Doc(d.name)), d.chunks))
  }

  ghost predicate DistinctNames(docs: seq<Document>) {
    forall k, l :: 0 <= k < l < |docs| ==> docs[k].name != docs[l].name
  }

  lemma SourceKeptTransitively(a: seq<Row>, b: seq<Row>, c: seq<Row>, s: Source)
    requires SourceKept(a, b, s) && SourceKept(b, c, s)
    ensures SourceKept(a, c, s)
  {
    var x, y, z := RowsOf(a, s), RowsOf(b, s), RowsOf(c, s);
    forall i | 0 <= i < |x| ensures z[i] == x[i].(done := z[i].done) && (x[i].done ==> z[i].done) {
      assert y[i] == x[i].(done := y[i].done) && z[i] == y[i].(done := z[i].done);
    }
  }

  lemma SourceKeptLoadable(a: seq<Row>, b: seq<Row>, d: Document)
    requires SourceKept(a, b, Doc(d.name))
    ensures Loadable(a, d) <==> Loadable(b, d)
  {
    SameLinksTexts(RowsOf(a, Doc(d.name)), RowsOf(b, Doc(d.name)), d.chunks);
  }

  ghost predicate Consistent(kb: Kb) {
    NoPending(kb.rows) && PointersOk(kb.rows) && Ids(kb.rows) == kb.vectors
  }

  lemma ConsistentIff(kb: Kb)
    requires Sound(kb) && NoPending(kb.rows)
    ensures Consistent(kb) <==> DoneHasVector(kb)
  {
    SoundPointersOk(kb);
    if DoneHasVector(kb) {
      forall x | x in Ids(kb.rows) ensures x in kb.vectors {
        var i :| 0 <= i < |kb.rows| && kb.rows[i].id == x;
      }
    } else {
      var i :| 0 <= i < |kb.rows| && kb.rows[i].done && kb.rows[i].id !in kb.vectors;
      assert kb.rows[i].id in Ids(kb.rows);
    }
  }

  // What was pending at first is done.
  ghost predicate Resumed(a: seq<Row>, b: seq<Row>) {
    |a| <= |b| && forall i :: 0 <= i < |a| ==> b[i].done && b[i] == a[i].(done := true)
  }

  lemma ResumedByPrefix(a: seq<Row>, b: seq<Row>, c: seq<Row>)
    requires KeptRows(a, b) && NoPending(b) && b <= c
    ensures Resumed(a, c)
  {
    assert forall i :: 0 <= i < |b| ==> c[i] == b[i];
  }

  lemma ResumedByVectors(a: seq<Row>, b: Kb, c: Kb)
    requires Resumed(a, b.rows) && Vectorized(b, c)
    ensures Resumed(a, c.rows)
  {
    forall i | 0 <= i < |a| ensures c.rows[i].done && c.rows[i] == a[i].(done := true) {
      assert c.rows[i] == b.rows[i].(done := c.rows[i].done);
    }
  }

  datatype Load = Loaded | Changed | Unparseable | Interrupted

  // The pending ones among the first n rows.
  ghost predicate AreFirstPending(rows: seq<Row>, batch: set<int>, n: int) {
    && 0 <= n <= |rows| && (forall k :: 0 <= k < n && !rows[k].done ==> rows[k].id in batch)
    && forall x :: x in batch ==> exists k :: 0 <= k < n && rows[k].id == x && !rows[k].done
  }

  class KnowledgeStore {
    var rows: seq<Row>
    var vectors: set<int>
    var nextId: int
    const batchSize: nat

    constructor (batchSize: nat)
      requires 1 <= batchSize
      ensures this.batchSize == batchSize && View() == Kb([], {}, 1) && Sound(View())
    {
      this.batchSize := batchSize;
      rows, vectors, nextId := [], {}, 1;
    }

    function View(): Kb
      reads this
    {
      Kb(rows, vectors, nextId)
    }

    // The first pending rows, by id, at most one batch.
    method FetchPending() returns (batch: set<int>)
      requires 1 <= batchSize
      ensures batch == {} <==> NoPending(rows)
      ensures PendingIds(rows, batch)
      ensures |batch| <= batchSize
      ensures exists n :: AreFirstPending(rows, batch, n)
      ensures |batch| < batchSize && RowsInOrder(rows, nextId) ==> AreFirstPending(rows, batch, |rows|)
    {
      batch := {};
      var i, taken := 0, 0;
      while i < |rows| && taken < batchSize
        invariant 0 <= i <= |rows| && |batch| <= taken <= batchSize
        invariant forall x :: x in batch ==> exists k :: 0 <= k < i && rows[k].id == x && !rows[k].done
        invariant forall k :: 0 <= k < i && !rows[k].done ==> rows[k].id in batch
        invariant taken > 0 ==> batch != {}
        invariant RowsInOrder(rows, nextId) ==> |batch| == taken
      {
        if !rows[i].done {
          batch := batch + {rows[i].id};
          taken := taken + 1;
        }
        i := i + 1;
      }
      assert AreFirstPending(rows, batch, i);
      if batch == {} {
        assert taken == 0 && i == |rows|;
        assert forall k :: 0 <= k < |rows| ==> rows[k].done;
      } else {
        var x :| x in batch;
        assert exists k :: 0 <= k < |rows| && rows[k].id == x && !rows[k].done;
      }
    }

    // One batch: first the vectors, then the marks; a stop in between leaves the batch pending.
    method VectorizeBatch(batch: set<int>, stop: Stop) returns (ok: bool, left: Stop)
      requires Sound(View()) && batch != {}
      requires PendingIds(rows, batch)
      modifies this
      ensures Sound(View()) && Vectorized(old(View()), View())
      ensures ok ==> CountPending(rows) < CountPending(old(rows))
      ensures ok ==> rows == Mark(old(rows), batch) && vectors == old(vectors) + batch
      ensures !ok ==> rows == old(rows) && (vectors == old(vectors) || vectors == old(vectors) + batch)
      ensures (stop.Never? ==> ok && left.Never?) && (!ok ==> left == After(0))
    {
      left := stop;
      if !Goes(left) {
        NothingVectorized(View());
        return false, left;
      }
      left := Spent(left);
      BatchVectorizes(View(), batch);
      AddVectors(batch);
      if !Goes(left) {
        return false, left;
      }
      left := Spent(left);
      MarkDone(batch);
      return true, left;
    }

    // Phase 2: batch by batch until nothing is pending.
    method VectorizePending(stop: Stop) returns (ok: bool, left: Stop)
      requires Sound(View()) && 1 <= batchSize
      modifies this
      ensures Sound(View()) && Vectorized(old(View()), View())
      ensures ok ==> NoPending(rows)
      ensures (stop.Never? ==> ok && left.Never?) && (!ok ==> left == After(0))
    {
      left := stop;
      NothingVectorized(View());
      while true
        invariant Sound(View()) && Vectorized(old(View()), View())
        invariant stop.Never? ==> left.Never?
        decreases CountPending(rows)
      {
        var batch := FetchPending();
        if batch == {} {
          return true, left;
        }
        ghost var before := View();
        var alive;
        alive, left := VectorizeBatch(batch, left);
        VectorizedTransitively(old(View()), before, View());
        if !alive {
          return false, left;
        }
      }
    }

    method AddVectors(batch: set<int>)
      requires Sound(View())
      requires PendingIds(rows, batch)
      modifies this`vectors
      ensures vectors == old(vectors) + batch
      ensures Sound(View()) && Vectorized(old(View()), View())
    {
      vectors := vectors + batch;
      UpsertIsSound(old(View()), batch);
    }

    method MarkDone(batch: set<int>)
      requires Sound(View()) && batch <= vectors
      modifies this`rows
      ensures rows == Mark(old(rows), batch) && Sound(View())
    {
      MarkKeepsSound(View(), batch);
      rows := Mark(rows, batch);
    }

    // Phase 1 for one file: one transaction, or nothing. The pointers of an unchanged document are written again; in
    // a sound store they already are what is written.
    method LoadDocument(d: Document, stop: Stop) returns (r: Load, left: Stop)
      requires Sound(View())
      modifies this
      ensures Sound(View()) && vectors == old(vectors)
      ensures DoneHasVector(old(View())) <==> DoneHasVector(View())
      ensures stop.Never? ==> left.Never?
      ensures r.Loaded? ==> Loadable(old(rows), d) && Texts(RowsOf(rows, Doc(d.name)), d.chunks)
      ensures r.Changed? || r.Unparseable? ==> !Loadable(old(rows), d)
      ensures r.Interrupted? ==> left == After(0)
      ensures !r.Loaded? ==> View() == old(View())
      ensures rows == old(rows)
              || (RowsOf(old(rows), Doc(d.name)) == []
                 && rows == old(rows) + Inserted(Doc(d.name), d.chunks, old(nextId)))
      ensures nextId == old(nextId) + |rows| - |old(rows)|
    {
      left := stop;
      if d.chunks == [] {
        return Unparseable, left;
      }
      var source := Doc(d.name);
      var existing := RowsOf(rows, source);
      if existing != [] {
        if !(|existing| == |d.chunks| && forall i :: 0 <= i < |existing| ==> existing[i].text == d.chunks[i]) {
          return Changed, left;
        }
        if !Goes(left) {
          return Interrupted, left;
        }
        return Loaded, Spent(left);
      }
      if !Goes(left) {
        return Interrupted, left;
      }
      InsertDocument(d);
      return Loaded, Spent(left);
    }

    method InsertDocument(d: Document)
      requires Sound(View()) && RowsOf(rows, Doc(d.name)) == []
      modifies this
      ensures Sound(View()) && vectors == old(vectors)
      ensures DoneHasVector(old(View())) <==> DoneHasVector(View())
      ensures rows == old(rows) + Inserted(Doc(d.name), d.chunks, old(nextId))
      ensures nextId == old(nextId) + |d.chunks|
      ensures Texts(RowsOf(rows, Doc(d.name)), d.chunks)
    {
      var more := Inserted(Doc(d.name), d.chunks, nextId);
      InsertDocumentIsSound(View(), d);
      InsertedIsLinked(Doc(d.name), d.chunks, nextId);
      InsertedRowsOf(rows, Doc(d.name), more);
      InsertKeepsDoneHasVector(View(), more);
      rows := rows + more;
      nextId := nextId + |more|;
    }

    // Two rows of a document are compared with their neighbours in index order.
    method PointerError() returns (broken: bool)
      ensures !broken <==> PointersOk(rows)
    {
      for i := 0 to |rows|
        invariant forall k :: 0 <= k < i && rows[k].source != NoSource ==>
                    Chain(SortByIndex(RowsOf(rows, rows[k].source)))
      {
        if rows[i].source != NoSource {
          var sorted := SortByIndex(RowsOf(rows, rows[i].source));
          for k := 0 to |sorted|
            invariant forall j :: 0 <= j < k ==>
                        sorted[j].prev == IdBefore(sorted, j) && sorted[j].next == IdAfter(sorted, j)
          {
            if sorted[k].prev != IdBefore(sorted, k) || sorted[k].next != IdAfter(sorted, k) {
              assert !Chain(sorted);
              return true;
            }
          }
        }
      }
      return false;
    }

    method Verify() returns (ok: bool)
      ensures ok <==> Consistent(View())
    {
      if exists i :: 0 <= i < |rows| && !rows[i].done {
        return false;
      }
      var broken := PointerError();
      return !broken && Ids(rows) == vectors;
    }

    // Phase 1 over all files.
    method LoadAll(docs: seq<Document>, stop: Stop) returns (ok: bool, left: Stop)
      requires Sound(View()) && DistinctNames(docs)
      modifies this
      ensures Sound(View()) && vectors == old(vectors)
      ensures DoneHasVector(old(View())) <==> DoneHasVector(View())
      ensures stop.Never? ==> left.Never? && (ok <==> Compatible(old(rows), docs))
      ensures !ok ==> left == After(0) || !Compatible(old(rows), docs)
      ensures ok ==> Compatible(old(rows), docs) && AllLoaded(rows, docs)
      ensures Compatible(old(rows), docs) ==> Compatible(rows, docs)
      ensures forall s :: !IsOneOf(s, docs) ==> RowsOf(rows, s) == RowsOf(old(rows), s)
      ensures old(rows) <= rows
    {
      left := stop;
      for i := 0 to |docs|
        invariant Sound(View()) && vectors == old(vectors)
        invariant DoneHasVector(old(View())) <==> DoneHasVector(View())
        invariant stop.Never? ==> left.Never?
        invariant Compatible(old(rows), docs[..i]) && AllLoaded(rows, docs[..i])
        invariant forall s :: !IsOneOf(s, docs[..i]) ==> RowsOf(rows, s) == RowsOf(old(rows), s)
        invariant old(rows) <= rows
      {
        ghost var before, firstId := rows, nextId;
        NamesAhead(docs, i);
        var r;
        r, left := LoadDocument(docs[i], left);
        LoadTouchesOne(before, rows, docs[i], firstId);
        if !r.Loaded? {
          AllLoadedCompatible(old(rows), rows, docs, i);
          return false, left;
        }
        OneMoreCompatible(old(rows), docs, i);
        OneMoreLoaded(before, rows, docs, i);
        OneMoreNames(docs, i);
      }
      assert docs[..|docs|] == docs;
      AllLoadedCompatible(old(rows), rows, docs, |docs|);
      return true, left;
    }

    // Resume what is pending, load every file, vectorize, verify. What holds wherever it stops, what a reported
    // success means, and when a run without failures succeeds.
    method RunIngest(docs: seq<Document>, skipVectorize: bool, stop: Stop) returns (ok: bool, left: Stop)
      requires Sound(View()) && DistinctNames(docs) && 1 <= batchSize
      modifies this
      ensures Sound(View())
      ensures DoneHasVector(old(View())) <==> DoneHasVector(View())
      ensures Compatible(old(rows), docs) ==> Compatible(rows, docs)
      ensures forall s :: !IsOneOf(s, docs) ==> SourceKept(old(rows), rows, s)
      ensures ok ==> AllLoaded(rows, docs) && (!skipVectorize ==> Consistent(View()))
      ensures stop.Never? ==> left.Never?
      ensures !ok ==> left == After(0) || docs == [] || !Compatible(old(rows), docs)
                      || (!skipVectorize && !DoneHasVector(old(View())))
      ensures docs != [] && !skipVectorize ==> Resumed(old(rows), rows) || left == After(0)
      ensures stop.Never? && skipVectorize ==> (ok <==> docs != [] && Compatible(old(rows), docs))
      ensures stop.Never? && !skipVectorize ==>
                (ok <==> docs != [] && Compatible(old(rows), docs) && DoneHasVector(old(View())))
    {
      if docs == [] {
        return false, stop;
      }
      ghost var start := View();
      if skipVectorize {
        ok, left := LoadAll(docs, stop);
        if ok {
          SoundPointersOk(View());
          var broken := PointerError();
          ok := !broken;
        }
        return;
      }
      ok, left := VectorizePending(stop);
      VectorizedFacts(start, View(), docs);
      if !ok {
        return;
      }
      ghost var resumed := View();
      ok, left := LoadAll(docs, left);
      ResumedByPrefix(start.rows, resumed.rows, rows);
      SourcesKeptTransitively(start.rows, resumed.rows, rows, docs);
      if !ok {
        return;
      }
      ghost var loaded := View();
      ok, left := VectorizePending(left);
      VectorizedFacts(loaded, View(), docs);
      ResumedByVectors(start.rows, loaded, View());
      SourcesKeptTransitively(start.rows, loaded.rows, rows, docs);
      if !ok {
        return;
      }
      ConsistentIff(View());
      ok := Verify();
    }

    // A run that stops anywhere is repaired by the next run that does not.
    method StopThenRerun(docs: seq<Document>, stop: Stop)
      requires Sound(View()) && DoneHasVector(View()) && DistinctNames(docs) && 1 <= batchSize
      requires docs != [] && Compatible(rows, docs)
      modifies this
      ensures Consistent(View()) && AllLoaded(rows, docs)
    {
      var ok, left := RunIngest(docs, false, stop);
      ok, left := RunIngest(docs, false, Never);
    }

    // Deletes every document chunk, vectors first, and ingests again. A stop between the two deletions leaves done
    // rows without vectors, which ingestion cannot repair and the next reset does.
    method ResetKb(docs: seq<Document>, embedding: bool, stop: Stop) returns (ok: bool)
      requires Sound(View()) && DistinctNames(docs) && 1 <= batchSize
      modifies this
      ensures Sound(View())
      ensures DoneHasVectorOutsideDocs(old(View())) ==> DoneHasVectorOutsideDocs(View())
      ensures forall s: Source :: !s.Doc? ==> SourceKept(old(rows), rows, s)
      ensures ok ==> AllLoaded(rows, docs) && OnlyDocs(rows, docs) && (embedding ==> Consistent(View()))
      ensures stop.Never? && embedding ==>
                (ok <==> docs != [] && Chunkable(docs) && DoneHasVectorOutsideDocs(old(View())))
    {
      if !Goes(stop) {
        return false;
      }
      var left := Spent(stop);
      DropVectorsFacts(View());
      vectors := vectors - DocIds(rows);
      if !Goes(left) {
        return false;
      }
      left := Spent(left);
      DropRowsFacts(View());
      rows := WithoutDocs(rows);
      ClearedIsCompatible(rows, docs);
      ghost var cleared := rows;
      ok, left := RunIngest(docs, !embedding, left);
      ClearedAreOnlyDocs(cleared, rows, docs);
      forall s: Source | !s.Doc? ensures SourceKept(old(rows), rows, s) {
        assert !IsOneOf(s, docs);
        assert SourceKept(cleared, rows, s);
      }
    }

    // Whatever a stopped reset left behind, a reset that runs through repairs.
    method ResetStopThenReset(docs: seq<Document>, stop: Stop)
      requires Sound(View()) && DoneHasVectorOutsideDocs(View()) && DistinctNames(docs) && 1 <= batchSize
      requires docs != [] && Chunkable(docs)
      modifies this
      ensures Consistent(View()) && AllLoaded(rows, docs) && OnlyDocs(rows, docs)
    {
      var ok := ResetKb(docs, true, stop);
      ok := ResetKb(docs, true, Never);
    }
  }

  lemma InsertedIsLinked(source: Source, texts: seq<string>, firstId: int)
    ensures Linked(Inserted(source, texts, firstId))
    ensures Texts(Inserted(source, texts, firstId), texts)
  {
    var rs := Inserted(source, texts, firstId);
    forall i | 0 <= i < |rs| ensures rs[i].prev == IdBefore(rs, i) && rs[i].next == IdAfter(rs, i) {
      assert i > 0 ==> rs[i - 1].id == firstId + i - 1;
      assert i + 1 < |rs| ==> rs[i + 1].id == firstId + i + 1;
    }
  }

  // Pending rows have no part in it.
  lemma InsertKeepsDoneHasVector(kb: Kb, more: seq<Row>)
    requires forall i :: 0 <= i < |more| ==> !more[i].done
    ensures DoneHasVector(kb) <==> DoneHasVector(Insert(kb, more))
  {
    var rows' := kb.rows + more;
    if DoneHasVector(Insert(kb, more)) {
      forall i | 0 <= i < |kb.rows| && kb.rows[i].done ensures kb.rows[i].id in kb.vectors {
        assert rows'[i] == kb.rows[i];
      }
    }
  }

  lemma InsertedRowsOf(rows: seq<Row>, source: Source, more: seq<Row>)
    requires RowsOf(rows, source) == [] && forall i :: 0 <= i < |more| ==> more[i].source == source
    ensures RowsOf(rows + more, source) == more
  {
    RowsOfConcat(rows, more, source);
    RowsOfUniform(more, source, source);
  }

  lemma InsertDocumentIsSound(kb: Kb, d: Document)
    requires Sound(kb) && RowsOf(kb.rows, Doc(d.name)) == []
    ensures Sound(Insert(kb, Inserted(Doc(d.name), d.chunks, kb.nextId)))
  {
    InsertedIsLinked(Doc(d.name), d.chunks, kb.nextId);
    InsertKeepsSound(kb, Inserted(Doc(d.name), d.chunks, kb.nextId), Doc(d.name));
  }

  lemma UpsertIsSound(kb: Kb, batch: set<int>)
    requires Sound(kb)
    requires PendingIds(kb.rows, batch)
    ensures Sound(kb.(vectors := kb.vectors + batch))
    ensures Vectorized(kb, kb.(vectors := kb.vectors + batch))
  {
    forall x | x in batch ensures x in Ids(kb.rows) {
      var i :| 0 <= i < |kb.rows| && kb.rows[i].id == x && !kb.rows[i].done;
    }
    forall i | 0 <= i < |kb.rows| && kb.rows[i].done && kb.rows[i].id !in kb.vectors
      ensures kb.rows[i].id !in kb.vectors + batch
    {
    }
  }

  lemma BatchVectorizes(kb: Kb, batch: set<int>)
    requires Sound(kb) && batch != {} && PendingIds(kb.rows, batch)
    ensures Vectorized(kb, Kb(Mark(kb.rows, batch), kb.vectors + batch, kb.nextId))
    ensures CountPending(Mark(kb.rows, batch)) < CountPending(kb.rows)
  {
    UpsertIsSound(kb, batch);
    MarkVectorizes(kb, batch);
    var x :| x in batch;
    BatchLowersCount(kb.rows, batch, x);
  }

  lemma MarkVectorizes(kb: Kb, batch: set<int>)
    requires Vectorized(kb, kb.(vectors := kb.vectors + batch))
    ensures Vectorized(kb, Kb(Mark(kb.rows, batch), kb.vectors + batch, kb.nextId))
  {
  }

  lemma BatchLowersCount(rows: seq<Row>, batch: set<int>, x: int)
    requires x in batch && PendingIds(rows, batch)
    ensures CountPending(Mark(rows, batch)) < CountPending(rows)
  {
    var i :| 0 <= i < |rows| && rows[i].id == x && !rows[i].done;
    assert Mark(rows, batch)[i].done;
    CountPendingDrops(rows, Mark(rows, batch));
  }

  ghost predicate IsOneOf(s: Source, docs: seq<Document>) {
    exists k :: 0 <= k < |docs| && s == Doc(docs[k].name)
  }

  // No other document has rows.
  ghost predicate OnlyDocs(rows: seq<Row>, docs: seq<Document>) {
    forall s: Source :: s.Doc? && !IsOneOf(s, docs) ==> RowsOf(rows, s) == []
  }

  lemma ClearedAreOnlyDocs(cleared: seq<Row>, rows: seq<Row>, docs: seq<Document>)
    requires forall s: Source :: s.Doc? ==> RowsOf(cleared, s) == []
    requires forall s :: !IsOneOf(s, docs) ==> SourceKept(cleared, rows, s)
    ensures OnlyDocs(rows, docs)
  {
    forall s: Source | s.Doc? && !IsOneOf(s, docs) ensures RowsOf(rows, s) == [] {
      assert SourceKept(cleared, rows, s);
    }
  }

  ghost predicate AllLoaded(rows: seq<Row>, docs: seq<Document>) {
    forall k :: 0 <= k < |docs| ==> Texts(RowsOf(rows, Doc(docs[k].name)), docs[k].chunks)
  }

  lemma NamesAhead(docs: seq<Document>, i: nat)
    requires DistinctNames(docs) && i < |docs|
    ensures !IsOneOf(Doc(docs[i].name), docs[..i])
  {
  }

  lemma LoadTouchesOne(a: seq<Row>, b: seq<Row>, d: Document, firstId: int)
    requires b == a || b == a + Inserted(Doc(d.name), d.chunks, firstId)
    ensures forall s :: s != Doc(d.name) ==> RowsOf(b, s) == RowsOf(a, s)
  {
    if b != a {
      var more := Inserted(Doc(d.name), d.chunks, firstId);
      forall s | s != Doc(d.name) ensures RowsOf(b, s) == RowsOf(a, s) {
        RowsOfConcat(a, more, s);
        RowsOfUniform(more, Doc(d.name), s);
        assert RowsOf(a, s) + [] == RowsOf(a, s);
      }
    }
  }

  // With the first i files in, and the rest of the table as it was, every other file is as loadable as before.
  lemma AllLoadedCompatible(before: seq<Row>, rows: seq<Row>, docs: seq<Document>, i: nat)
    requires DistinctNames(docs) && i <= |docs| && AllLoaded(rows, docs[..i])
    requires forall s :: !IsOneOf(s, docs[..i]) ==> RowsOf(rows, s) == RowsOf(before, s)
    ensures Compatible(before, docs) ==> Compatible(rows, docs)
    ensures forall s :: !IsOneOf(s, docs) ==> RowsOf(rows, s) == RowsOf(before, s)
    ensures i < |docs| ==> (Loadable(rows, docs[i]) <==> Loadable(before, docs[i]))
  {
    forall k | 0 <= k < |docs| && Loadable(before, docs[k]) ensures Loadable(rows, docs[k]) {
      if k < i {
        assert docs[..i][k] == docs[k];
      } else {
        assert !IsOneOf(Doc(docs[k].name), docs[..i]);
      }
    }
    if i < |docs| {
      NamesAhead(docs, i);
    }
    forall s | !IsOneOf(s, docs) ensures !IsOneOf(s, docs[..i]) {
      assert forall k :: 0 <= k < i ==> docs[..i][k] == docs[k];
    }
  }

  lemma OneMoreCompatible(start: seq<Row>, docs: seq<Document>, i: nat)
    requires i < |docs| && Compatible(start, docs[..i]) && Loadable(start, docs[i])
    ensures Compatible(start, docs[..i + 1])
  {
    var upto := docs[..i + 1];
    forall k | 0 <= k <= i ensures Loadable(start, upto[k]) {
      assert k < i ==> upto[k] == docs[..i][k];
    }
  }

  lemma OneMoreNames(docs: seq<Document>, i: nat)
    requires i < |docs|
    ensures forall s :: !IsOneOf(s, docs[..i + 1]) ==> !IsOneOf(s, docs[..i]) && s != Doc(docs[i].name)
  {
    var upto := docs[..i + 1];
    forall s | !IsOneOf(s, upto) ensures !IsOneOf(s, docs[..i]) && s != Doc(docs[i].name) {
      assert upto[i] == docs[i];
      assert forall k :: 0 <= k < i ==> docs[..i][k] == upto[k];
    }
  }

  lemma OneMoreLoaded(before: seq<Row>, rows: seq<Row>, docs: seq<Document>, i: nat)
    requires DistinctNames(docs) && i < |docs| && AllLoaded(before, docs[..i])
    requires forall s :: s != Doc(docs[i].name) ==> RowsOf(rows, s) == RowsOf(before, s)
    requires Texts(RowsOf(rows, Doc(docs[i].name)), docs[i].chunks)
    ensures AllLoaded(rows, docs[..i + 1])
  {
    var upto := docs[..i + 1];
    forall k | 0 <= k <= i ensures Texts(RowsOf(rows, Doc(upto[k].name)), upto[k].chunks) {
      if k < i {
        assert upto[k] == docs[..i][k];
        assert Doc(upto[k].name) != Doc(docs[i].name);
      }
    }
  }

  lemma SourcesKeptTransitively(a: seq<Row>, b: seq<Row>, c: seq<Row>, docs: seq<Document>)
    requires forall s :: !IsOneOf(s, docs) ==> SourceKept(a, b, s)
    requires forall s :: !IsOneOf(s, docs) ==> SourceKept(b, c, s)
    ensures forall s :: !IsOneOf(s, docs) ==> SourceKept(a, c, s)
  {
    forall s | !IsOneOf(s, docs) ensures SourceKept(a, c, s) {
      SourceKeptTransitively(a, b, c, s);
    }
  }

  lemma VectorizedFacts(a: Kb, b: Kb, docs: seq<Document>)
    requires Vectorized(a, b)
    ensures forall s :: SourceKept(a.rows, b.rows, s)
    ensures DoneHasVector(a) <==> DoneHasVector(b)
    ensures Compatible(a.rows, docs) <==> Compatible(b.rows, docs)
    ensures AllLoaded(a.rows, docs) ==> AllLoaded(b.rows, docs)
  {
    forall s ensures SourceKept(a.rows, b.rows, s) {
      VectorizedSource(a.rows, b.rows, s);
    }
    VectorizedKeepsDoneHasVector(a, b);
    forall k | 0 <= k < |docs|
      ensures Loadable(a.rows, docs[k]) <==> Loadable(b.rows, docs[k])
      ensures Texts(RowsOf(a.rows, Doc(docs[k].name)), docs[k].chunks) ==>
                Texts(RowsOf(b.rows, Doc(docs[k].name)), docs[k].chunks)
    {
      SourceKeptLoadable(a.rows, b.rows, docs[k]);
      SameLinksTexts(RowsOf(a.rows, Doc(docs[k].name)), RowsOf(b.rows, Doc(docs[k].name)), docs[k].chunks);
    }
  }

  lemma VectorizedKeepsDoneHasVector(a: Kb, b: Kb)
    requires Vectorized(a, b)
    ensures DoneHasVector(a) <==> DoneHasVector(b)
  {
    if DoneHasVector(a) {
      forall i | 0 <= i < |b.rows| && b.rows[i].done ensures b.rows[i].id in b.vectors {
        assert b.rows[i] == a.rows[i].(done := b.rows[i].done);
      }
    }
    if DoneHasVector(b) {
      forall i | 0 <= i < |a.rows| && a.rows[i].done ensures a.rows[i].id in a.vectors {
        assert b.rows[i] == a.rows[i].(done := b.rows[i].done);
      }
    }
  }

  // ---------------------------------------------------------------- reset

  function DocIds(rows: seq<Row>): set<int> {
    set i | 0 <= i < |rows| && rows[i].source.Doc? :: rows[i].id
  }

  ghost predicate DoneHasVectorOutsideDocs(kb: Kb) {
    forall i :: 0 <= i < |kb.rows| && kb.rows[i].done && !kb.rows[i].source.Doc? ==> kb.rows[i].id in kb.vectors
  }

  ghost predicate Chunkable(docs: seq<Document>) {
    forall k :: 0 <= k < |docs| ==> docs[k].chunks != []
  }

  // Deleting the vectors first never leaves a vector without its row.
  lemma DropVectorsFacts(kb: Kb)
    requires Sound(kb)
    ensures var kb' := kb.(vectors := kb.vectors - DocIds(kb.rows));
            && Sound(kb') && (DoneHasVectorOutsideDocs(kb) <==> DoneHasVectorOutsideDocs(kb'))
            && forall r :: r in kb'.rows && r.source.Doc? ==> r.id !in kb'.vectors
  {
    forall i, k | 0 <= i < |kb.rows| && 0 <= k < |kb.rows| && kb.rows[i].id == kb.rows[k].id ensures i == k {
    }
  }

  // A reset that stops between its two deletions leaves every done row its vector only if no document row was done;
  // what it breaks, ingestion reports and does not repair (RunIngest).
  lemma HalfResetIff(kb: Kb)
    requires Sound(kb)
    ensures DoneHasVector(kb.(vectors := kb.vectors - DocIds(kb.rows)))
            <==> DoneHasVectorOutsideDocs(kb) && forall r :: r in kb.rows && r.source.Doc? ==> !r.done
  {
    var kb' := kb.(vectors := kb.vectors - DocIds(kb.rows));
    DropVectorsFacts(kb);
    DoneMembers(kb');
  }

  lemma OneRow(row: Row, s: Source)
    ensures RowsOf([row], s) == if row.source == s then [row] else []
  {
    assert [row][..|[row]| - 1] == [];
  }

  lemma OneRowIsSound(row: Row)
    requires row.id == 1 && row.index == 1 && row.prev.None? && row.next.None?
    ensures Sound(Kb([row], {1}, 2)) && DoneHasVector(Kb([row], {1}, 2))
  {
    forall s: Source ensures Linked(RowsOf([row], s)) {
      OneRow(row, s);
    }
    assert [row][0].id in Ids([row]);
  }

  // As here: one document row, done, with its vector.
  lemma HalfResetLosesVectors()
    ensures var kb := Kb([Row(1, Doc("d"), 1, "t", None, None, true)], {1}, 2);
            && Sound(kb) && DoneHasVector(kb) && !DoneHasVector(kb.(vectors := kb.vectors - DocIds(kb.rows)))
  {
    var row := Row(1, Doc("d"), 1, "t", None, None, true);
    OneRowIsSound(row);
    HalfResetIff(Kb([row], {1}, 2));
    assert row in [row];
  }

  lemma DropRowsFacts(kb: Kb)
    requires Sound(kb) && forall r :: r in kb.rows && r.source.Doc? ==> r.id !in kb.vectors
    ensures var kb' := kb.(rows := WithoutDocs(kb.rows));
            && Sound(kb') && (DoneHasVectorOutsideDocs(kb) <==> DoneHasVector(kb'))
            && forall s: Source ::
                 if s.Doc? then RowsOf(kb'.rows, s) == [] else RowsOf(kb'.rows, s) == RowsOf(kb.rows, s)
  {
    WithoutDocsKeepsSound(kb);
    WithoutDocsMembers(kb.rows);
    var rows' := WithoutDocs(kb.rows);
    forall s: Source
      ensures if s.Doc? then RowsOf(rows', s) == [] else RowsOf(rows', s) == RowsOf(kb.rows, s)
    {
      RowsOfWithoutDocs(kb.rows, s);
    }
    DoneMembers(kb);
    DoneMembers(kb.(rows := rows'));
  }

  lemma DoneMembers(kb: Kb)
    ensures DoneHasVector(kb) <==> forall r :: r in kb.rows && r.done ==> r.id in kb.vectors
    ensures DoneHasVectorOutsideDocs(kb)
            <==> forall r :: r in kb.rows && r.done && !r.source.Doc? ==> r.id in kb.vectors
  {
  }

  lemma ClearedIsCompatible(rows: seq<Row>, docs: seq<Document>)
    requires forall s: Source :: s.Doc? ==> RowsOf(rows, s) == []
    ensures Compatible(rows, docs) <==> Chunkable(docs)
  {
    assert forall k :: 0 <= k < |docs| ==> RowsOf(rows, Doc(docs[k].name)) == [];
  }
}
