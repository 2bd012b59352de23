/** Knowledge chunks in their two stores: the rows of the authoritative table and the ids of the vector store
    (app/models.py, app/knowledge/ingest.py). A row is pending until its vector is written, and the chunks of one
    source are linked by the ids of their neighbours. Here are the store operations that ingestion, approval and
    reset share, and what each of them does to soundness: no vector without its row, ids in order, and every
    source one chain. */
module KnowledgeRows {
  import opened Basics

  // Where a chunk comes from: a file of the document directory, an approved review, or nowhere in particular
  // (manual entries and mined questions).
  datatype Source = Doc(name: string) | ReviewDoc(review: nat) | NoSource

  datatype Row = Row(id: int, source: Source, index: nat, text: string, prev: Option<int>, next: Option<int>,
                     done: bool)

  datatype Kb = Kb(rows: seq<Row>, vectors: set<int>, nextId: int)

  function Ids(rows: seq<Row>): set<int> {
    set i | 0 <= i < |rows| :: rows[i].id
  }

  function RowsOf(rows: seq<Row>, source: Source): seq<Row> {
    if rows == [] then []
    else RowsOf(rows[..|rows| - 1], source) + if rows[|rows| - 1].source == source then [rows[|rows| - 1]] else []
  }

  // The chunks of one source, inserted together: consecutive ids, indexes from 1, neighbours linked, all pending.
  function Inserted(source: Source, texts: seq<string>, firstId: int): (r: seq<Row>)
    ensures |r| == |texts|
    ensures forall i :: 0 <= i < |r| ==>
              r[i] == Row(firstId + i, source, i + 1, texts[i],
                          if i > 0 then Some(firstId + i - 1) else None,
                          if i + 1 < |texts| then Some(firstId + i + 1) else None, false)
  {
    seq(|texts|, i requires 0 <= i < |texts| =>
      Row(firstId + i, source, i + 1, texts[i],
          if i > 0 then Some(firstId + i - 1) else None,
          if i + 1 < |texts| then Some(firstId + i + 1) else None, false))
  }

  // Chunks without a source have no index and no neighbours.
  function Loose(texts: seq<string>, firstId: int): (r: seq<Row>)
    ensures |r| == |texts|
    ensures forall i :: 0 <= i < |r| ==> r[i] == Row(firstId + i, NoSource, 0, texts[i], None, None, false)
  {
    seq(|texts|, i requires 0 <= i < |texts| => Row(firstId + i, NoSource, 0, texts[i], None, None, false))
  }

  function Insert(kb: Kb, more: seq<Row>): Kb {
    kb.(rows := kb.rows + more, nextId := kb.nextId + |more|)
  }

  function Mark(rows: seq<Row>, ids: set<int>): (r: seq<Row>)
    ensures |r| == |rows|
    ensures forall i :: 0 <= i < |r| ==> r[i] == if rows[i].id in ids then rows[i].(done := true) else rows[i]
  {
    seq(|rows|, i requires 0 <= i < |rows| => if rows[i].id in ids then rows[i].(done := true) else rows[i])
  }

  function WithoutDocs(rows: seq<Row>): seq<Row> {
    if rows == [] then []
    else WithoutDocs(rows[..|rows| - 1]) + if rows[|rows| - 1].source.Doc? then [] else [rows[|rows| - 1]]
  }

  predicate NoPending(rows: seq<Row>) {
    forall i :: 0 <= i < |rows| ==> rows[i].done
  }

  // ---------------------------------------------------------------- shapes

  function IdBefore(rs: seq<Row>, i: nat): Option<int>
    requires i < |rs|
  {
    if i > 0 then Some(rs[i - 1].id) else None
  }

  function IdAfter(rs: seq<Row>, i: nat): Option<int>
    requires i < |rs|
  {
    if i + 1 < |rs| then Some(rs[i + 1].id) else None
  }

  // Each row points at its neighbours.
  ghost predicate Chain(rs: seq<Row>) {
    forall i :: 0 <= i < |rs| ==> rs[i].prev == IdBefore(rs, i) && rs[i].next == IdAfter(rs, i)
  }

  ghost predicate Linked(rs: seq<Row>) {
    Chain(rs) && forall i :: 0 <= i < |rs| ==> rs[i].index == i + 1
  }

  ghost predicate RowsInOrder(rows: seq<Row>, nextId: int) {
    && (forall i :: 0 <= i < |rows| ==> 0 < rows[i].id < nextId)
    && (forall i, j :: 0 <= i < j < |rows| ==> rows[i].id < rows[j].id)
  }

  // The two stores: no vector without its row, and each source's rows form one chain.
  ghost predicate Sound(kb: Kb) {
    && 0 < kb.nextId && RowsInOrder(kb.rows, kb.nextId) && kb.vectors <= Ids(kb.rows)
    && forall s: Source :: s != NoSource ==> Linked(RowsOf(kb.rows, s))
  }

  // A row marked done has its vector.
  ghost predicate DoneHasVector(kb: Kb) {
    forall i :: 0 <= i < |kb.rows| && kb.rows[i].done ==> kb.rows[i].id in kb.vectors
  }

  ghost predicate Texts(rs: seq<Row>, texts: seq<string>) {
    |rs| == |texts| && forall i :: 0 <= i < |rs| ==> rs[i].text == texts[i]
  }

  // ---------------------------------------------------------------- how the table operations act on one source

  lemma {:induction false} RowsOfConcat(a: seq<Row>, b: seq<Row>, s: Source)
    ensures RowsOf(a + b, s) == RowsOf(a, s) + RowsOf(b, s)
  {
    if b == [] {
      assert a + b == a;
    } else {
      RowsOfConcat(a, b[..|b| - 1], s);
      assert (a + b)[..|a + b| - 1] == a + b[..|b| - 1];
    }
  }

  lemma {:induction false} RowsOfUniform(rows: seq<Row>, t: Source, s: Source)
    requires forall i :: 0 <= i < |rows| ==> rows[i].source == t
    ensures RowsOf(rows, s) == if s == t then rows else []
  {
    if rows != [] {
      RowsOfUniform(rows[..|rows| - 1], t, s);
    }
  }

  lemma {:induction false} RowsOfMark(rows: seq<Row>, ids: set<int>, s: Source)
    ensures RowsOf(Mark(rows, ids), s) == Mark(RowsOf(rows, s), ids)
  {
    if rows != [] {
      var init := rows[..|rows| - 1];
      RowsOfMark(init, ids, s);
      assert Mark(rows, ids)[..|rows| - 1] == Mark(init, ids);
    }
  }

  lemma {:induction false} RowsOfWithoutDocs(rows: seq<Row>, s: Source)
    ensures RowsOf(WithoutDocs(rows), s) == if s.Doc? then [] else RowsOf(rows, s)
  {
    if rows != [] {
      var init, last := rows[..|rows| - 1], rows[|rows| - 1];
      RowsOfWithoutDocs(init, s);
      if !last.source.Doc? {
        RowsOfConcat(WithoutDocs(init), [last], s);
        RowsOfUniform([last], last.source, s);
        assert RowsOf(rows, s) == RowsOf(init, s) + RowsOf([last], s);
      } else {
        assert WithoutDocs(rows) == WithoutDocs(init);
      }
    }
  }

  lemma {:induction false} RowsOfMembers(rows: seq<Row>, s: Source)
    ensures forall r :: r in RowsOf(rows, s) <==> r in rows && r.source == s
  {
    if rows != [] {
      RowsOfMembers(rows[..|rows| - 1], s);
      assert rows == rows[..|rows| - 1] + [rows[|rows| - 1]];
    }
  }

  lemma {:induction false} WithoutDocsMembers(rows: seq<Row>)
    ensures forall r :: r in WithoutDocs(rows) <==> r in rows && !r.source.Doc?
  {
    if rows != [] {
      WithoutDocsMembers(rows[..|rows| - 1]);
      assert rows == rows[..|rows| - 1] + [rows[|rows| - 1]];
    }
  }

  lemma {:induction false} WithoutDocsInOrder(rows: seq<Row>, nextId: int)
    requires RowsInOrder(rows, nextId)
    ensures RowsInOrder(WithoutDocs(rows), nextId)
  {
    if rows != [] {
      var init := rows[..|rows| - 1];
      var kept := WithoutDocs(init);
      WithoutDocsInOrder(init, nextId);
      forall i | 0 <= i < |kept| ensures kept[i].id < rows[|rows| - 1].id {
        WithoutDocsMembers(init);
        assert kept[i] in init;
      }
    }
  }

  // Rows that differ in their done flag only.
  ghost predicate SameLinks(a: seq<Row>, b: seq<Row>) {
    |a| == |b| && forall i :: 0 <= i < |a| ==> b[i] == a[i].(done := b[i].done)
  }

  lemma SameLinksChain(a: seq<Row>, b: seq<Row>)
    requires SameLinks(a, b) && Chain(a)
    ensures Chain(b)
  {
    forall i | 0 <= i < |b| ensures b[i].prev == IdBefore(b, i) && b[i].next == IdAfter(b, i) {
      assert a[i].prev == IdBefore(a, i) && a[i].next == IdAfter(a, i);
      assert i > 0 ==> b[i - 1].id == a[i - 1].id;
      assert i + 1 < |b| ==> b[i + 1].id == a[i + 1].id;
    }
  }

  lemma MarkKeepsLinked(rs: seq<Row>, ids: set<int>)
    requires Linked(rs)
    ensures Linked(Mark(rs, ids))
  {
    SameLinksChain(rs, Mark(rs, ids));
  }

  lemma MarkKeepsIds(rows: seq<Row>, ids: set<int>)
    ensures Ids(Mark(rows, ids)) == Ids(rows)
  {
    var m := Mark(rows, ids);
    forall x | x in Ids(rows) ensures x in Ids(m) {
      var i :| 0 <= i < |rows| && rows[i].id == x;
      assert m[i].id == x;
    }
    forall x | x in Ids(m) ensures x in Ids(rows) {
      var i :| 0 <= i < |m| && m[i].id == x;
      assert rows[i].id == x;
    }
  }

  // Inserting a fresh source, or loose chunks, keeps the stores sound.
  lemma InsertKeepsSound(kb: Kb, more: seq<Row>, t: Source)
    requires Sound(kb)
    requires t == NoSource || RowsOf(kb.rows, t) == []
    requires forall i :: 0 <= i < |more| ==> more[i].source == t && more[i].id == kb.nextId + i && !more[i].done
    requires t != NoSource ==> Linked(more)
    ensures Sound(Insert(kb, more))
    ensures DoneHasVector(kb) ==> DoneHasVector(Insert(kb, more))
  {
    var kb' := Insert(kb, more);
    forall s: Source | s != NoSource ensures Linked(RowsOf(kb'.rows, s)) {
      RowsOfConcat(kb.rows, more, s);
      RowsOfUniform(more, t, s);
      if s == t {
        assert RowsOf(kb'.rows, s) == more;
      } else {
        assert RowsOf(kb'.rows, s) == RowsOf(kb.rows, s);
      }
    }
    forall x | x in kb.vectors ensures x in Ids(kb'.rows) {
      assert x in Ids(kb.rows);
      var i :| 0 <= i < |kb.rows| && kb.rows[i].id == x;
      assert kb'.rows[i].id == x;
    }
  }

  lemma MarkKeepsSound(kb: Kb, ids: set<int>)
    requires Sound(kb)
    ensures Sound(kb.(rows := Mark(kb.rows, ids)))
    ensures DoneHasVector(kb) && ids <= kb.vectors ==> DoneHasVector(kb.(rows := Mark(kb.rows, ids)))
  {
    MarkKeepsIds(kb.rows, ids);
    forall s: Source | s != NoSource ensures Linked(RowsOf(Mark(kb.rows, ids), s)) {
      RowsOfMark(kb.rows, ids, s);
      MarkKeepsLinked(RowsOf(kb.rows, s), ids);
    }
  }

  // Dropping the document rows together with (at least) their vectors.
  lemma WithoutDocsKeepsSound(kb: Kb)
    requires Sound(kb)
    requires forall r :: r in kb.rows && r.source.Doc? ==> r.id !in kb.vectors
    ensures Sound(kb.(rows := WithoutDocs(kb.rows)))
  {
    var rows' := WithoutDocs(kb.rows);
    WithoutDocsInOrder(kb.rows, kb.nextId);
    WithoutDocsMembers(kb.rows);
    forall x | x in kb.vectors ensures x in Ids(rows') {
      assert x in Ids(kb.rows);
      var i :| 0 <= i < |kb.rows| && kb.rows[i].id == x;
      assert kb.rows[i] in kb.rows;
      assert kb.rows[i] in rows';
      var j :| 0 <= j < |rows'| && rows'[j] == kb.rows[i];
    }
    forall s: Source | s != NoSource ensures Linked(RowsOf(rows', s)) {
      RowsOfWithoutDocs(kb.rows, s);
    }
  }
}
