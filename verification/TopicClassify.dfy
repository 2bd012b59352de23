/** Batch classification of pooled questions and the topic distribution (app/services/topic_classify.py). Questions are
    grouped by turn and each group gets one result. A run takes what is not current, asks the service in batches, and
    writes everything in one transaction; the distribution counts groups. The service is a function from texts to a
    response that may be malformed. */
module TopicClassify {
  import opened Basics

  datatype Key = Turn(conversation: int, turn: int) | Single(id: int)

  datatype Question = Question(id: int, conversation: Option<int>, turn: Option<int>, resolved: string, raw: string)

  datatype Meta = Meta(model: string, taxonomy: string, threshold: real)

  // The version a run stores its results under, and their metadata.
  datatype Target = Target(version: string, meta: Meta)

  // labels is None when the stored JSON is not a list of strings.
  datatype Stored = Stored(labels: Option<seq<string>>, version: string, meta: Meta)

  type Table = map<int, Stored>

  datatype Response = Unreachable | Payload(version: string, labels: seq<seq<string>>, scores: seq<seq<real>>)

  // The decide names in their frozen order, and the one for everything else.
  datatype Taxonomy = Taxonomy(names: seq<string>, other: string)

  ghost predicate TaxonomyOk(t: Taxonomy) {
    t.other in t.names
  }

  // ---------------------------------------------------------------- decoding

  function Hits(t: Taxonomy, scores: seq<real>, threshold: real, n: nat): seq<string>
    requires n <= |t.names| && n <= |scores|
  {
    if n == 0 then []
    else
      Hits(t, scores, threshold, n - 1)
      + if t.names[n - 1] != t.other && scores[n - 1] >= threshold then [t.names[n - 1]] else []
  }

  function Decode(t: Taxonomy, scores: seq<real>, threshold: real): seq<string>
    requires |scores| == |t.names|
  {
    var hits := Hits(t, scores, threshold, |t.names|);
    if hits != [] then hits else [t.other]
  }

  predicate IsHit(t: Taxonomy, scores: seq<real>, threshold: real, i: nat) {
    i < |t.names| && i < |scores| && t.names[i] != t.other && scores[i] >= threshold
  }

  lemma {:induction false} HitsAre(t: Taxonomy, scores: seq<real>, threshold: real, n: nat)
    requires n <= |t.names| && n <= |scores|
    ensures forall l :: l in Hits(t, scores, threshold, n) <==>
              exists i :: 0 <= i < n && IsHit(t, scores, threshold, i) && t.names[i] == l
  {
    if n > 0 {
      HitsAre(t, scores, threshold, n - 1);
    }
  }

  predicate Legal(t: Taxonomy, labels: Option<seq<string>>) {
    labels.Some? && labels.value != [] && forall i :: 0 <= i < |labels.value| ==> labels.value[i] in t.names
  }

  // Decoding always gives legal labels: what scored enough, or the name for everything else and nothing beside it.
  lemma DecodeIsLegal(t: Taxonomy, scores: seq<real>, threshold: real)
    requires TaxonomyOk(t) && |scores| == |t.names|
    ensures Legal(t, Some(Decode(t, scores, threshold)))
    ensures t.other in Decode(t, scores, threshold) ==> Decode(t, scores, threshold) == [t.other]
  {
    HitsAre(t, scores, threshold, |t.names|);
    var hits := Hits(t, scores, threshold, |t.names|);
    forall i | 0 <= i < |hits| ensures hits[i] in t.names && hits[i] != t.other {
      assert hits[i] in hits;
    }
  }

  // The places that score enough, in order.
  ghost predicate ArePlaces(t: Taxonomy, scores: seq<real>, threshold: real, n: nat, places: seq<nat>) {
    && (forall k :: 0 <= k < |places| ==> places[k] < n && IsHit(t, scores, threshold, places[k]))
    && (forall k, l :: 0 <= k < l < |places| ==> places[k] < places[l])
    && forall i :: 0 <= i < n && IsHit(t, scores, threshold, i) ==> i in places
  }

  lemma {:induction false} HitPlaces(t: Taxonomy, scores: seq<real>, threshold: real, n: nat)
    returns (places: seq<nat>)
    requires n <= |t.names| && n <= |scores|
    ensures ArePlaces(t, scores, threshold, n, places)
    ensures var hits := Hits(t, scores, threshold, n);
            |hits| == |places| && forall k :: 0 <= k < |hits| ==> hits[k] == t.names[places[k]]
  {
    places := [];
    if n > 0 {
      places := HitPlaces(t, scores, threshold, n - 1);
      if IsHit(t, scores, threshold, n - 1) {
        places := places + [n - 1];
      }
    }
  }

  // The labels are the names that score enough, in the order of the taxonomy; the name for everything else stands in
  // only when none does.
  lemma DecodeSpec(t: Taxonomy, scores: seq<real>, threshold: real) returns (places: seq<nat>)
    requires |scores| == |t.names|
    ensures ArePlaces(t, scores, threshold, |t.names|, places)
    ensures var labels := Decode(t, scores, threshold);
            if places == [] then labels == [t.other]
            else |labels| == |places| && forall k :: 0 <= k < |labels| ==> labels[k] == t.names[places[k]]
  {
    places := HitPlaces(t, scores, threshold, |t.names|);
  }

  // ---------------------------------------------------------------- groups

  function KeyOf(q: Question): Key {
    if q.conversation.Some? && q.turn.Some? then Turn(q.conversation.value, q.turn.value) else Single(q.id)
  }

  predicate Anchored(q: Question) {
    q.conversation.Some? && q.turn.Some?
  }

  // Questions with both anchors belong together when they are of one turn; any other question stands alone.
  lemma SameGroupIff(a: Question, b: Question)
    ensures KeyOf(a) == KeyOf(b)
            <==> if Anchored(a) && Anchored(b) then a.conversation == b.conversation && a.turn == b.turn
                 else !Anchored(a) && !Anchored(b) && a.id == b.id
  {
  }

  function Members(questions: seq<Question>, key: Key): seq<Question> {
    if questions == [] then []
    else Members(questions[..|questions| - 1], key)
         + if KeyOf(questions[|questions| - 1]) == key then [questions[|questions| - 1]] else []
  }

  // The keys, each once, in order of appearance.
  function Keys(questions: seq<Question>): seq<Key> {
    if questions == [] then []
    else
      var keys, key := Keys(questions[..|questions| - 1]), KeyOf(questions[|questions| - 1]);
      if key in keys then keys else keys + [key]
  }

  lemma {:induction false} MembersAre(questions: seq<Question>, key: Key)
    ensures forall q :: q in Members(questions, key) <==> q in questions && KeyOf(q) == key
  {
    if questions != [] {
      MembersAre(questions[..|questions| - 1], key);
      assert questions == questions[..|questions| - 1] + [questions[|questions| - 1]];
    }
  }

  lemma {:induction false} KeysAre(questions: seq<Question>)
    ensures forall k :: k in Keys(questions) <==> exists q :: q in questions && KeyOf(q) == k
    ensures NoRepeats(Keys(questions))
  {
    if questions != [] {
      KeysAre(questions[..|questions| - 1]);
      assert questions == questions[..|questions| - 1] + [questions[|questions| - 1]];
    }
  }

  method GroupQuestions(questions: seq<Question>) returns (keys: seq<Key>, groups: map<Key, seq<Question>>)
    ensures keys == Keys(questions) && groups.Keys == set k | k in keys
    ensures forall k :: k in keys ==> groups[k] == Members(questions, k)
  {
    keys, groups := [], map[];
    for i := 0 to |questions|
      invariant keys == Keys(questions[..i]) && groups.Keys == set k | k in keys
      invariant forall k :: k in keys ==> groups[k] == Members(questions[..i], k)
    {
      var key := KeyOf(questions[i]);
      assert questions[..i + 1][..i] == questions[..i];
      KeysAre(questions[..i]);
      if key !in groups {
        NoMembers(questions[..i], key);
        keys := keys + [key];
        groups := groups[key := []];
      }
      groups := groups[key := groups[key] + [questions[i]]];
    }
    assert questions[..|questions|] == questions;
  }

  lemma NoMembers(questions: seq<Question>, key: Key)
    requires key !in Keys(questions)
    ensures Members(questions, key) == []
  {
    KeysAre(questions);
    assert forall i :: 0 <= i < |questions| ==> questions[i] in questions;
    NoneWithKey(questions, key);
  }

  lemma {:induction false} NoneWithKey(questions: seq<Question>, key: Key)
    requires forall i :: 0 <= i < |questions| ==> KeyOf(questions[i]) != key
    ensures Members(questions, key) == []
  {
    if questions != [] {
      NoneWithKey(questions[..|questions| - 1], key);
    }
  }

  // ---------------------------------------------------------------- the text of a group

  function FirstText(texts: seq<string>): Option<string> {
    if texts == [] then None
    else if Strip(texts[0]) != "" then Some(Strip(texts[0]))
    else FirstText(texts[1..])
  }

  function Resolved(members: seq<Question>): (r: seq<string>)
    ensures |r| == |members| && forall i :: 0 <= i < |r| ==> r[i] == members[i].resolved
  {
    seq(|members|, i requires 0 <= i < |members| => members[i].resolved)
  }

  function Raws(members: seq<Question>): (r: seq<string>)
    ensures |r| == |members| && forall i :: 0 <= i < |r| ==> r[i] == members[i].raw
  {
    seq(|members|, i requires 0 <= i < |members| => members[i].raw)
  }

  // The first resolved question that says something, or else the first raw one.
  function RepresentativeText(members: seq<Question>): Option<string> {
    var resolved := FirstText(Resolved(members));
    if resolved.Some? then resolved else FirstText(Raws(members))
  }

  // The first text that is not blank, stripped.
  ghost predicate IsFirstText(texts: seq<string>, text: string) {
    exists i :: 0 <= i < |texts| && IsFirstAt(texts, i) && text == Strip(texts[i])
  }

  ghost predicate IsFirstAt(texts: seq<string>, i: nat) {
    i < |texts| && !Blank(texts[i]) && forall k :: 0 <= k < i ==> Blank(texts[k])
  }

  ghost predicate AllBlank(texts: seq<string>) {
    forall i :: 0 <= i < |texts| ==> Blank(texts[i])
  }

  lemma {:induction false} FirstTextIs(texts: seq<string>)
    ensures FirstText(texts).None? <==> AllBlank(texts)
    ensures FirstText(texts).Some? ==> IsFirstText(texts, FirstText(texts).value)
  {
    if texts != [] {
      StripBlank(texts[0]);
      FirstTextIs(texts[1..]);
      if Blank(texts[0]) {
        FirstTextBehind(texts);
      } else {
        assert IsFirstAt(texts, 0);
      }
    }
  }

  lemma FirstTextBehind(texts: seq<string>)
    requires texts != [] && Blank(texts[0])
    ensures AllBlank(texts) <==> AllBlank(texts[1..])
    ensures forall text :: IsFirstText(texts[1..], text) ==> IsFirstText(texts, text)
  {
    assert AllBlank(texts[1..]) ==> forall i :: 1 <= i < |texts| ==> texts[i] == texts[1..][i - 1];
    forall text | IsFirstText(texts[1..], text) ensures IsFirstText(texts, text) {
      var i :| 0 <= i < |texts| - 1 && IsFirstAt(texts[1..], i) && text == Strip(texts[1..][i]);
      assert forall k :: 1 <= k <= i ==> texts[k] == texts[1..][k - 1];
      assert IsFirstAt(texts, i + 1);
    }
  }

  // The text of a group: the first resolved question that says something, and only if none does the first raw one.
  lemma RepresentativeTextIs(members: seq<Question>)
    ensures var text := RepresentativeText(members);
            && (text.None? <==> AllBlank(Resolved(members)) && AllBlank(Raws(members)))
            && (text.Some? ==>
                  if AllBlank(Resolved(members)) then IsFirstText(Raws(members), text.value)
                  else IsFirstText(Resolved(members), text.value))
  {
    FirstTextIs(Resolved(members));
    FirstTextIs(Raws(members));
  }

  ghost predicate HasText(members: seq<Question>) {
    exists i :: 0 <= i < |members| && !(Blank(members[i].resolved) && Blank(members[i].raw))
  }

  lemma {:induction false} FirstTextIff(texts: seq<string>)
    ensures FirstText(texts).Some? <==> exists i :: 0 <= i < |texts| && !Blank(texts[i])
  {
    if texts != [] {
      StripBlank(texts[0]);
      FirstTextIff(texts[1..]);
      if i :| 0 <= i < |texts| && !Blank(texts[i]) {
        assert i > 0 ==> !Blank(texts[1..][i - 1]);
      }
    }
  }

  lemma TextIff(members: seq<Question>)
    ensures RepresentativeText(members).Some? <==> HasText(members)
  {
    FirstTextIff(Resolved(members));
    FirstTextIff(Raws(members));
    if HasText(members) {
      var i :| 0 <= i < |members| && !(Blank(members[i].resolved) && Blank(members[i].raw));
      assert !Blank(Resolved(members)[i]) || !Blank(Raws(members)[i]);
    }
  }

  // ---------------------------------------------------------------- what there is to do

  predicate IsCurrent(t: Taxonomy, table: Table, id: int, target: Target) {
    id in table && table[id].version == target.version && Legal(t, table[id].labels) && table[id].meta == target.meta
  }

  predicate AllCurrent(t: Taxonomy, table: Table, members: seq<Question>, target: Target) {
    forall i :: 0 <= i < |members| ==> IsCurrent(t, table, members[i].id, target)
  }

  predicate NeedsWork(t: Taxonomy, table: Table, questions: seq<Question>, key: Key, target: Target) {
    !AllCurrent(t, table, Members(questions, key), target) && RepresentativeText(Members(questions, key)).Some?
  }

  function Todo(t: Taxonomy, table: Table, questions: seq<Question>, keys: seq<Key>, target: Target): seq<Key> {
    if keys == [] then []
    else Todo(t, table, questions, keys[..|keys| - 1], target)
         + if NeedsWork(t, table, questions, keys[|keys| - 1], target) then [keys[|keys| - 1]] else []
  }

  lemma {:induction false} TodoAre(t: Taxonomy, table: Table, questions: seq<Question>, keys: seq<Key>, target: Target)
    ensures forall k :: k in Todo(t, table, questions, keys, target) <==>
              k in keys && NeedsWork(t, table, questions, k, target)
  {
    if keys != [] {
      TodoAre(t, table, questions, keys[..|keys| - 1], target);
      assert keys == keys[..|keys| - 1] + [keys[|keys| - 1]];
    }
  }

  ghost predicate NoRepeats(keys: seq<Key>) {
    forall i, j :: 0 <= i < j < |keys| ==> keys[i] != keys[j]
  }

  lemma {:induction false} TodoNoRepeats(t: Taxonomy, table: Table, questions: seq<Question>, keys: seq<Key>,
                                         target: Target)
    requires NoRepeats(keys)
    ensures NoRepeats(Todo(t, table, questions, keys, target))
  {
    if keys != [] {
      var n := |keys| - 1;
      var before := Todo(t, table, questions, keys[..n], target);
      TodoNoRepeats(t, table, questions, keys[..n], target);
      TodoAre(t, table, questions, keys[..n], target);
      assert keys[n] !in keys[..n];
      assert keys[n] !in before;
      if !NeedsWork(t, table, questions, keys[n], target) {
        assert before + [] == before;
      }
    }
  }

  function TextsOf(questions: seq<Question>, keys: seq<Key>): (texts: seq<string>)
    ensures |texts| == |keys|
    ensures forall i :: 0 <= i < |texts| ==> texts[i] == TextOr(RepresentativeText(Members(questions, keys[i])))
  {
    seq(|keys|, i requires 0 <= i < |keys| => TextOr(RepresentativeText(Members(questions, keys[i]))))
  }

  function TextOr(text: Option<string>): string {
    if text.Some? then text.value else ""
  }

  // ---------------------------------------------------------------- inference in batches

  predicate ValidScores(t: Taxonomy, scores: seq<real>) {
    |scores| == |t.names| && forall i :: 0 <= i < |scores| ==> 0.0 <= scores[i] <= 1.0
  }

  ghost predicate ValidBatch(t: Taxonomy, target: Target, count: nat, r: Response) {
    && r.Payload? && r.version == target.version && |r.labels| == count && |r.scores| == count
    && forall i :: 0 <= i < count ==>
         ValidScores(t, r.scores[i]) && r.labels[i] == Decode(t, r.scores[i], target.meta.threshold)
  }

  method ValidateBatch(t: Taxonomy, target: Target, count: nat, r: Response) returns (ok: bool)
    ensures ok <==> ValidBatch(t, target, count, r)
  {
    if r.Unreachable? || r.version != target.version || |r.labels| != count || |r.scores| != count {
      return false;
    }
    for i := 0 to count
      invariant forall k :: 0 <= k < i ==>
                  ValidScores(t, r.scores[k]) && r.labels[k] == Decode(t, r.scores[k], target.meta.threshold)
    {
      if !ValidScores(t, r.scores[i]) || r.labels[i] != Decode(t, r.scores[i], target.meta.threshold) {
        return false;
      }
    }
    return true;
  }

  // The labels of all texts, or nothing as soon as one batch fails.
  ghost function Replies(t: Taxonomy, target: Target, respond: seq<string> -> Response, texts: seq<string>,
                         size: nat): Option<seq<seq<string>>>
    requires 1 <= size
    decreases |texts|
  {
    if texts == [] then Some([])
    else
      var n := if size < |texts| then size else |texts|;
      var r, rest := respond(texts[..n]), Replies(t, target, respond, texts[n..], size);
      if ValidBatch(t, target, n, r) && rest.Some? then Some(r.labels + rest.value) else None
  }

  predicate BadEntry(t: Taxonomy, target: Target, labels: seq<string>, scores: seq<real>) {
    || |scores| != |t.names| || (exists j :: 0 <= j < |scores| && (scores[j] < 0.0 || scores[j] > 1.0))
    || labels != Decode(t, scores, target.meta.threshold)
  }

  // What is wrong with a response to that many texts.
  predicate BadResponse(t: Taxonomy, target: Target, count: nat, r: Response) {
    || r.Unreachable? || r.version != target.version || |r.labels| != count || |r.scores| != count
    || exists i :: 0 <= i < count && BadEntry(t, target, r.labels[i], r.scores[i])
  }

  // A run of batches fails exactly when the response to its first batch is bad or the rest fails; otherwise the first
  // texts have the labels of that response.
  lemma RepliesFailIff(t: Taxonomy, target: Target, respond: seq<string> -> Response, texts: seq<string>, size: nat)
    requires 1 <= size && texts != []
    ensures var n := if size < |texts| then size else |texts|;
            var all, rest := Replies(t, target, respond, texts, size), Replies(t, target, respond, texts[n..], size);
            && (all.None? <==> BadResponse(t, target, n, respond(texts[..n])) || rest.None?)
            && (all.Some? ==> all.value == respond(texts[..n]).labels + rest.value)
  {
    var n := if size < |texts| then size else |texts|;
    BadResponseIff(t, target, n, respond(texts[..n]));
  }

  lemma BadResponseIff(t: Taxonomy, target: Target, count: nat, r: Response)
    ensures BadResponse(t, target, count, r) <==> !ValidBatch(t, target, count, r)
  {
    if r.Payload? && r.version == target.version && |r.labels| == count && |r.scores| == count {
      forall i | 0 <= i < count
        ensures BadEntry(t, target, r.labels[i], r.scores[i])
                <==> !(ValidScores(t, r.scores[i]) && r.labels[i] == Decode(t, r.scores[i], target.meta.threshold))
      {
      }
    }
  }

  // A service that looks at each text alone: it may fail on any batch, or refuse some sizes, but the labels it gives a
  // text do not depend on the rest of the batch.
  ghost predicate Pointwise(t: Taxonomy, target: Target, respond: seq<string> -> Response,
                            decide: string -> seq<string>) {
    forall texts: seq<string> :: ValidBatch(t, target, |texts|, respond(texts)) ==>
      forall i :: 0 <= i < |texts| ==> respond(texts).labels[i] == decide(texts[i])
  }

  ghost function Decided(decide: string -> seq<string>, texts: seq<string>): (r: seq<seq<string>>)
    ensures |r| == |texts| && forall i :: 0 <= i < |r| ==> r[i] == decide(texts[i])
  {
    seq(|texts|, i requires 0 <= i < |texts| => decide(texts[i]))
  }

  // Then every run that succeeds, in batches of whatever size, gives each text its own labels.
  lemma {:induction false} SuccessDecides(t: Taxonomy, target: Target, respond: seq<string> -> Response,
                                          decide: string -> seq<string>, texts: seq<string>, size: nat)
    requires 1 <= size && Pointwise(t, target, respond, decide)
    requires Replies(t, target, respond, texts, size).Some?
    ensures Replies(t, target, respond, texts, size) == Some(Decided(decide, texts))
    decreases |texts|
  {
    if texts == [] {
      assert Decided(decide, texts) == [];
    } else {
      var n := if size < |texts| then size else |texts|;
      SuccessDecides(t, target, respond, decide, texts[n..], size);
      DecidedSplit(decide, texts, n);
      BatchDecided(t, target, respond, decide, texts[..n]);
    }
  }

  // So the size of the batches makes no difference to what a successful run writes.
  lemma BatchSizeIrrelevant(t: Taxonomy, target: Target, respond: seq<string> -> Response,
                            decide: string -> seq<string>, texts: seq<string>, size: nat, other: nat)
    requires 1 <= size && 1 <= other && Pointwise(t, target, respond, decide)
    requires Replies(t, target, respond, texts, size).Some? && Replies(t, target, respond, texts, other).Some?
    ensures Replies(t, target, respond, texts, size) == Replies(t, target, respond, texts, other)
  {
    SuccessDecides(t, target, respond, decide, texts, size);
    SuccessDecides(t, target, respond, decide, texts, other);
  }

  lemma DecidedSplit(decide: string -> seq<string>, texts: seq<string>, n: nat)
    requires n <= |texts|
    ensures Decided(decide, texts[..n]) + Decided(decide, texts[n..]) == Decided(decide, texts)
  {
  }

  lemma BatchDecided(t: Taxonomy, target: Target, respond: seq<string> -> Response, decide: string -> seq<string>,
                     texts: seq<string>)
    requires Pointwise(t, target, respond, decide) && ValidBatch(t, target, |texts|, respond(texts))
    ensures respond(texts).labels == Decided(decide, texts)
  {
  }

  lemma {:induction false} RepliesFacts(t: Taxonomy, target: Target, respond: seq<string> -> Response,
                                        texts: seq<string>, size: nat)
    requires 1 <= size && TaxonomyOk(t) && Replies(t, target, respond, texts, size).Some?
    ensures |Replies(t, target, respond, texts, size).value| == |texts|
    ensures forall i :: 0 <= i < |texts| ==> Legal(t, Some(Replies(t, target, respond, texts, size).value[i]))
    decreases |texts|
  {
    if texts != [] {
      var n := if size < |texts| then size else |texts|;
      var r := respond(texts[..n]);
      RepliesFacts(t, target, respond, texts[n..], size);
      forall i | 0 <= i < n ensures Legal(t, Some(r.labels[i])) {
        DecodeIsLegal(t, r.scores[i], target.meta.threshold);
      }
    }
  }

  // ---------------------------------------------------------------- writing

  function WriteGroup(table: Table, members: seq<Question>, s: Stored): Table {
    if members == [] then table
    else WriteGroup(table, members[..|members| - 1], s)[members[|members| - 1].id := s]
  }

  function WriteAll(table: Table, questions: seq<Question>, keys: seq<Key>, labels: seq<seq<string>>,
                    target: Target): Table
    requires |labels| == |keys|
  {
    if keys == [] then table
    else
      var n := |keys| - 1;
      WriteGroup(WriteAll(table, questions, keys[..n], labels[..n], target), Members(questions, keys[n]),
                 Stored(Some(labels[n]), target.version, target.meta))
  }

  ghost predicate DistinctIds(questions: seq<Question>) {
    forall i, j :: 0 <= i < j < |questions| ==> questions[i].id != questions[j].id
  }

  ghost predicate HasMember(members: seq<Question>, id: int) {
    exists i :: 0 <= i < |members| && members[i].id == id
  }

  lemma {:induction false} WriteGroupAt(table: Table, members: seq<Question>, s: Stored, id: int)
    ensures var after := WriteGroup(table, members, s);
            if HasMember(members, id)
            then id in after && after[id] == s
            else (id in after <==> id in table) && (id in table ==> after[id] == table[id])
  {
    if members != [] {
      var n := |members| - 1;
      WriteGroupAt(table, members[..n], s, id);
      if i :| 0 <= i < |members| && members[i].id == id {
        assert i < n ==> members[..n][i].id == id;
      }
    }
  }

  lemma SameIdSame(questions: seq<Question>, a: Question, b: Question)
    requires DistinctIds(questions) && a in questions && b in questions && a.id == b.id
    ensures a == b
  {
    var i :| 0 <= i < |questions| && questions[i] == a;
    var j :| 0 <= j < |questions| && questions[j] == b;
    assert i == j;
  }

  lemma HasId(questions: seq<Question>, key: Key, q: Question)
    requires DistinctIds(questions) && q in questions
    ensures HasMember(Members(questions, key), q.id) <==> KeyOf(q) == key
  {
    MembersAre(questions, key);
    var members := Members(questions, key);
    if KeyOf(q) == key {
      assert q in members;
      var i :| 0 <= i < |members| && members[i] == q;
      assert members[i].id == q.id;
    }
    forall i | 0 <= i < |members| && members[i].id == q.id ensures KeyOf(q) == key {
      assert members[i] in members;
      SameIdSame(questions, members[i], q);
    }
  }

  ghost predicate SameAt(a: Table, b: Table, id: int) {
    (id in b <==> id in a) && (id in a ==> b[id] == a[id])
  }

  ghost predicate WrittenAt(after: Table, id: int, key: Key, keys: seq<Key>, labels: seq<seq<string>>, target: Target) {
    id in after && exists i :: 0 <= i < |keys| && i < |labels| && keys[i] == key
                               && after[id] == Stored(Some(labels[i]), target.version, target.meta)
  }

  // A run writes the members of the groups it handled, one result for the whole group, and nothing else.
  lemma {:induction false} WriteAllAt(table: Table, questions: seq<Question>, keys: seq<Key>, labels: seq<seq<string>>,
                                      target: Target, q: Question)
    requires |labels| == |keys| && DistinctIds(questions) && q in questions && NoRepeats(keys)
    ensures var after := WriteAll(table, questions, keys, labels, target);
            if KeyOf(q) in keys then WrittenAt(after, q.id, KeyOf(q), keys, labels, target)
                else SameAt(table, after, q.id)
  {
    if keys != [] {
      var n := |keys| - 1;
      var before := WriteAll(table, questions, keys[..n], labels[..n], target);
      var s := Stored(Some(labels[n]), target.version, target.meta);
      WriteAllAt(table, questions, keys[..n], labels[..n], target, q);
      HasId(questions, keys[n], q);
      WriteGroupAt(before, Members(questions, keys[n]), s, q.id);
      OneMoreWritten(table, before, WriteGroup(before, Members(questions, keys[n]), s), q.id,
          KeyOf(q), keys, labels, target);
    }
  }

  lemma OneMoreWritten(table: Table, before: Table, after: Table, id: int, key: Key, keys: seq<Key>,
                       labels: seq<seq<string>>, target: Target)
    requires |labels| == |keys| && keys != [] && NoRepeats(keys)
    requires var n := |keys| - 1;
             && (if key in keys[..n] then WrittenAt(before, id, key, keys[..n], labels[..n], target)
                 else SameAt(table, before, id))
             && (if key == keys[n] then id in after && after[id] == Stored(Some(labels[n]), target.version, target.meta)
                 else SameAt(before, after, id))
    ensures if key in keys then WrittenAt(after, id, key, keys, labels, target) else SameAt(table, after, id)
  {
    var n := |keys| - 1;
    assert keys == keys[..n] + [keys[n]];
    if key in keys[..n] {
      var i :| 0 <= i < n && keys[..n][i] == key
          && before[id] == Stored(Some(labels[..n][i]), target.version, target.meta);
      assert keys[i] == key && keys[i] != keys[n] && labels[i] == labels[..n][i];
    }
  }

  // ---------------------------------------------------------------- what a run leaves behind

  function TextsTodo(t: Taxonomy, table: Table, questions: seq<Question>, target: Target): seq<string> {
    TextsOf(questions, Todo(t, table, questions, Keys(questions), target))
  }

  // A run that succeeds, on the table it found.
  ghost predicate IsRun(t: Taxonomy, table: Table, after: Table, questions: seq<Question>, target: Target,
                        labels: seq<seq<string>>) {
    var todo := Todo(t, table, questions, Keys(questions), target);
    && |labels| == |todo| && after == WriteAll(table, questions, todo, labels, target)
    && forall i :: 0 <= i < |labels| ==> Legal(t, Some(labels[i]))
  }

  // Members of one group after a run: written together, or all current before and left alone.
  lemma AfterRun(t: Taxonomy, table: Table, after: Table, questions: seq<Question>, target: Target,
                 labels: seq<seq<string>>, q: Question)
    requires IsRun(t, table, after, questions, target, labels) && DistinctIds(questions) && q in questions
    ensures var todo := Todo(t, table, questions, Keys(questions), target);
            if NeedsWork(t, table, questions, KeyOf(q), target)
            then WrittenAt(after, q.id, KeyOf(q), todo, labels, target) && IsCurrent(t, after, q.id, target)
            else SameAt(table, after, q.id)
  {
    KeysAre(questions);
    TodoAre(t, table, questions, Keys(questions), target);
    TodoNoRepeats(t, table, questions, Keys(questions), target);
    WriteAllAt(table, questions, Todo(t, table, questions, Keys(questions), target), labels, target, q);
  }

  // With a service that looks at each text alone, every group that was taken on ends with the labels decided for its
  // own text, whatever the batches were, under the version and metadata of the run.
  lemma RunDecidesEachGroup(t: Taxonomy, table: Table, after: Table, questions: seq<Question>, target: Target,
                            respond: seq<string> -> Response, decide: string -> seq<string>, size: nat, q: Question)
    requires 1 <= size && Pointwise(t, target, respond, decide) && DistinctIds(questions) && q in questions
    requires Replies(t, target, respond, TextsTodo(t, table, questions, target), size).Some?
    requires IsRun(t, table, after, questions, target,
                   Replies(t, target, respond, TextsTodo(t, table, questions, target), size).value)
    requires NeedsWork(t, table, questions, KeyOf(q), target)
    ensures var text := RepresentativeText(Members(questions, KeyOf(q)));
            && text.Some? && q.id in after
            && after[q.id] == Stored(Some(decide(text.value)), target.version, target.meta)
  {
    var texts := TextsTodo(t, table, questions, target);
    SuccessDecides(t, target, respond, decide, texts, size);
    AfterRun(t, table, after, questions, target, Decided(decide, texts), q);
  }

  // After a run every question of a group with a usable text has a legal result of this version and this metadata.
  lemma EveryTextIsUpToDate(t: Taxonomy, table: Table, after: Table, questions: seq<Question>, target: Target,
                            labels: seq<seq<string>>, q: Question)
    requires IsRun(t, table, after, questions, target, labels) && DistinctIds(questions) && q in questions
    requires RepresentativeText(Members(questions, KeyOf(q))).Some?
    ensures q.id in after && after[q.id].version == target.version && after[q.id].meta == target.meta
    ensures Legal(t, after[q.id].labels)
  {
    GroupAfterRun(t, table, after, questions, target, labels, KeyOf(q));
    MembersAre(questions, KeyOf(q));
    var members := Members(questions, KeyOf(q));
    var i :| 0 <= i < |members| && members[i] == q;
    assert IsCurrent(t, after, members[i].id, target);
  }

  // An immediate second run finds nothing to do, so it writes nothing.
  lemma SecondRunWritesNothing(t: Taxonomy, table: Table, after: Table, questions: seq<Question>, target: Target,
                               labels: seq<seq<string>>)
    requires IsRun(t, table, after, questions, target, labels) && DistinctIds(questions)
    ensures Todo(t, after, questions, Keys(questions), target) == []
    ensures forall again :: IsRun(t, after, again, questions, target, []) ==> again == after
  {
    var keys := Keys(questions);
    forall i | 0 <= i < |keys| ensures !NeedsWork(t, after, questions, keys[i], target) {
      GroupAfterRun(t, table, after, questions, target, labels, keys[i]);
    }
    NothingTodo(t, after, questions, keys, target);
  }

  lemma {:induction false} NothingTodo(t: Taxonomy, table: Table, questions: seq<Question>, keys: seq<Key>,
                                       target: Target)
    requires forall i :: 0 <= i < |keys| ==> !NeedsWork(t, table, questions, keys[i], target)
    ensures Todo(t, table, questions, keys, target) == []
  {
    if keys != [] {
      NothingTodo(t, table, questions, keys[..|keys| - 1], target);
    }
  }

  lemma GroupAfterRun(t: Taxonomy, table: Table, after: Table, questions: seq<Question>, target: Target,
                      labels: seq<seq<string>>, key: Key)
    requires IsRun(t, table, after, questions, target, labels) && DistinctIds(questions)
    ensures RepresentativeText(Members(questions, key)).Some? ==> AllCurrent(t, after, Members(questions, key), target)
  {
    var members := Members(questions, key);
    MembersAre(questions, key);
    forall i | 0 <= i < |members| && RepresentativeText(members).Some?
      ensures IsCurrent(t, after, members[i].id, target)
    {
      assert members[i] in members;
      AfterRun(t, table, after, questions, target, labels, members[i]);
    }
  }

  // ---------------------------------------------------------------- what every table looks like

  ghost predicate StoredAt(table: Table, questions: seq<Question>, q: Question) {
    q in questions && q.id in table
  }

  // Results are stored for whole groups at once, and only for groups that have a text.
  ghost predicate TableOk(table: Table, questions: seq<Question>) {
    && (forall q :: StoredAt(table, questions, q) ==> HasText(Members(questions, KeyOf(q))))
    && (forall p, q :: StoredAt(table, questions, p) && StoredAt(table, questions, q) && KeyOf(p) == KeyOf(q) ==>
          table[p.id] == table[q.id])
  }

  lemma RunKeepsTableOk(t: Taxonomy, table: Table, after: Table, questions: seq<Question>, target: Target,
                        labels: seq<seq<string>>)
    requires IsRun(t, table, after, questions, target, labels) && DistinctIds(questions) && TableOk(table, questions)
    ensures TableOk(after, questions)
  {
    forall q | StoredAt(after, questions, q) ensures HasText(Members(questions, KeyOf(q))) {
      AfterRun(t, table, after, questions, target, labels, q);
      TextIff(Members(questions, KeyOf(q)));
      assert !NeedsWork(t, table, questions, KeyOf(q), target) ==> StoredAt(table, questions, q);
    }
    forall p, q | StoredAt(after, questions, p) && StoredAt(after, questions, q) && KeyOf(p) == KeyOf(q)
      ensures after[p.id] == after[q.id]
    {
      SameAfterRun(t, table, after, questions, target, labels, p, q);
    }
  }

  lemma SameAfterRun(t: Taxonomy, table: Table, after: Table, questions: seq<Question>, target: Target,
                     labels: seq<seq<string>>, p: Question, q: Question)
    requires IsRun(t, table, after, questions, target, labels) && DistinctIds(questions) && TableOk(table, questions)
    requires StoredAt(after, questions, p) && StoredAt(after, questions, q) && KeyOf(p) == KeyOf(q)
    ensures after[p.id] == after[q.id]
  {
    AfterRun(t, table, after, questions, target, labels, p);
    AfterRun(t, table, after, questions, target, labels, q);
    if NeedsWork(t, table, questions, KeyOf(p), target) {
      KeysAre(questions);
      TodoNoRepeats(t, table, questions, Keys(questions), target);
      WrittenAlike(after, p.id, q.id, KeyOf(p), Todo(t, table, questions, Keys(questions), target), labels, target);
    } else {
      assert StoredAt(table, questions, p) && StoredAt(table, questions, q);
    }
  }

  lemma WrittenAlike(after: Table, a: int, b: int, key: Key, keys: seq<Key>, labels: seq<seq<string>>, target: Target)
    requires NoRepeats(keys) && WrittenAt(after, a, key, keys, labels, target)
            && WrittenAt(after, b, key, keys, labels, target)
    ensures after[a] == after[b]
  {
  }

  // A new question can only add text to its group.
  lemma ArrivalKeepsTableOk(table: Table, questions: seq<Question>, q: Question)
    requires TableOk(table, questions) && q.id !in table
    ensures TableOk(table, questions + [q])
  {
    var more := questions + [q];
    forall p | StoredAt(table, more, p) ensures StoredAt(table, questions, p) && HasText(Members(more, KeyOf(p))) {
      assert more[..|questions|] == questions;
      var members := Members(questions, KeyOf(p));
      var i :| 0 <= i < |members| && !(Blank(members[i].resolved) && Blank(members[i].raw));
      assert Members(more, KeyOf(p))[i] == members[i];
    }
  }

  // ---------------------------------------------------------------- the distribution

  // order: the places of the label names, in the order they are shown.
  datatype Distribution =
    Distribution(total: nat, classified: nat, counts: map<string, nat>, order: seq<nat>, stale: bool)

  // The whole group has one legal result.
  predicate GroupOk(t: Taxonomy, table: Table, members: seq<Question>) {
    && members != []
    && (forall i :: 0 <= i < |members| ==> members[i].id in table)
    && (forall i :: 0 <= i < |members| ==> table[members[i].id].labels == table[members[0].id].labels
                                           && table[members[i].id].version == table[members[0].id].version)
    && Legal(t, table[members[0].id].labels)
  }

  ghost predicate AllStored(table: Table, members: seq<Question>, labels: seq<string>, version: string) {
    forall i :: 0 <= i < |members| ==>
      && members[i].id in table && table[members[i].id].labels == Some(labels)
      && table[members[i].id].version == version
  }

  // A group counts as classified exactly when there are legal labels and a version that all its members have.
  lemma GroupOkIff(t: Taxonomy, table: Table, members: seq<Question>)
    ensures GroupOk(t, table, members)
            <==> members != [] && exists labels, version ::
                   Legal(t, Some(labels)) && AllStored(table, members, labels, version)
  {
    if GroupOk(t, table, members) {
      var first := table[members[0].id];
      assert AllStored(table, members, first.labels.value, first.version);
    }
  }

  function CountOk(t: Taxonomy, table: Table, questions: seq<Question>, keys: seq<Key>): nat {
    if keys == [] then 0
    else CountOk(t, table, questions, keys[..|keys| - 1])
         + if GroupOk(t, table, Members(questions, keys[|keys| - 1])) then 1 else 0
  }

  predicate HasLabel(t: Taxonomy, table: Table, members: seq<Question>, l: string) {
    GroupOk(t, table, members) && l in table[members[0].id].labels.value
  }

  function CountLabel(t: Taxonomy, table: Table, questions: seq<Question>, keys: seq<Key>, l: string): nat {
    if keys == [] then 0
    else CountLabel(t, table, questions, keys[..|keys| - 1], l)
         + if HasLabel(t, table, Members(questions, keys[|keys| - 1]), l) then 1 else 0
  }

  function CountText(questions: seq<Question>, keys: seq<Key>): nat {
    if keys == [] then 0
    else CountText(questions, keys[..|keys| - 1])
         + if RepresentativeText(Members(questions, keys[|keys| - 1])).Some? then 1 else 0
  }

  ghost predicate Conflict(table: Table, questions: seq<Question>) {
    exists p, q :: StoredAt(table, questions, p) && StoredAt(table, questions, q)
                   && (table[p.id].version != table[q.id].version || table[p.id].meta != table[q.id].meta)
  }

  ghost predicate Stale(table: Table, questions: seq<Question>, taxonomy: string) {
    exists q :: StoredAt(table, questions, q) && table[q.id].meta.taxonomy != taxonomy
  }

  method FindStored(table: Table, questions: seq<Question>) returns (first: Option<Stored>, conflict: bool)
    ensures first.None? <==> forall q :: !StoredAt(table, questions, q)
    ensures conflict <==> Conflict(table, questions)
    ensures first.Some? ==> exists q :: StoredAt(table, questions, q) && table[q.id] == first.value
  {
    first, conflict := None, false;
    for i := 0 to |questions|
      invariant first.None? <==> forall k :: 0 <= k < i ==> questions[k].id !in table
      invariant first.Some? ==>
              exists k :: 0 <= k < i && questions[k].id in table && table[questions[k].id] == first.value
      invariant conflict ==> Conflict(table, questions)
      invariant !conflict && first.Some? ==>
                  forall k :: 0 <= k < i && questions[k].id in table ==>
                    table[questions[k].id].version == first.value.version
                        && table[questions[k].id].meta == first.value.meta
    {
      if questions[i].id in table {
        var s := table[questions[i].id];
        assert StoredAt(table, questions, questions[i]);
        if first.None? {
          first := Some(s);
        } else if s.version != first.value.version || s.meta != first.value.meta {
          ghost var k :| 0 <= k < i && questions[k].id in table && table[questions[k].id] == first.value;
          assert StoredAt(table, questions, questions[k]);
          conflict := true;
        }
      }
    }
    forall q | StoredAt(table, questions, q) ensures first.Some? {
      var a :| 0 <= a < |questions| && questions[a] == q;
    }
    if first.Some? {
      ghost var k :| 0 <= k < |questions| && questions[k].id in table && table[questions[k].id] == first.value;
      assert StoredAt(table, questions, questions[k]);
    }
    if !conflict {
      forall p, q | StoredAt(table, questions, p) && StoredAt(table, questions, q)
        ensures table[p.id].version == table[q.id].version && table[p.id].meta == table[q.id].meta
      {
        var a :| 0 <= a < |questions| && questions[a] == p;
        var b :| 0 <= b < |questions| && questions[b] == q;
      }
    }
  }

  lemma {:induction false} CountTextOk(t: Taxonomy, table: Table, questions: seq<Question>, keys: seq<Key>)
    requires forall k :: k in keys ==>
            (GroupOk(t, table, Members(questions, k)) <==> RepresentativeText(Members(questions, k)).Some?)
    ensures CountOk(t, table, questions, keys) == CountText(questions, keys)
  {
    if keys != [] {
      var n := |keys| - 1;
      assert keys[n] in keys && forall k :: k in keys[..n] ==> k in keys;
      CountTextOk(t, table, questions, keys[..n]);
    }
  }

  // How many groups carry each label; nothing when the results are stale.
  ghost predicate CountsAre(t: Taxonomy, table: Table, questions: seq<Question>, keys: seq<Key>, stale: bool,
                            counts: map<string, nat>) {
    && counts.Keys == (set l | l in t.names)
    && forall l :: l in t.names ==> counts[l] == if stale then 0 else CountLabel(t, table, questions, keys, l)
  }

  function NoCounts(t: Taxonomy): (counts: map<string, nat>)
    ensures counts.Keys == (set l | l in t.names) && forall l :: l in counts ==> counts[l] == 0
  {
    map l | l in t.names :: 0
  }

  lemma CountsMore(t: Taxonomy, table: Table, questions: seq<Question>, keys: seq<Key>, i: nat, stale: bool,
                   before: map<string, nat>, after: map<string, nat>)
    requires i < |keys| && CountsAre(t, table, questions, keys[..i], stale, before) && after.Keys == before.Keys
    requires forall l :: l in before ==>
               after[l] == before[l] + if !stale && HasLabel(t, table, Members(questions, keys[i]), l) then 1 else 0
    ensures CountsAre(t, table, questions, keys[..i + 1], stale, after)
    ensures CountOk(t, table, questions, keys[..i + 1])
            == CountOk(t, table, questions, keys[..i]) + if GroupOk(t, table, Members(questions, keys[i])) then 1 else 0
  {
    assert keys[..i + 1][..i] == keys[..i];
  }

  // Right after a run, with no question arrived since, the distribution has no conflict and counts as classified
  // exactly the groups with a usable text.
  lemma DistributionAfterRun(t: Taxonomy, table: Table, after: Table, questions: seq<Question>, target: Target,
                             labels: seq<seq<string>>)
    requires IsRun(t, table, after, questions, target, labels) && DistinctIds(questions) && TableOk(table, questions)
    ensures !Conflict(after, questions)
    ensures CountOk(t, after, questions, Keys(questions)) == CountText(questions, Keys(questions))
    ensures Stale(after, questions, target.meta.taxonomy) == false
  {
    RunKeepsTableOk(t, table, after, questions, target, labels);
    forall q | StoredAt(after, questions, q)
      ensures after[q.id].version == target.version && after[q.id].meta == target.meta
    {
      TextIff(Members(questions, KeyOf(q)));
      GroupAfterRun(t, table, after, questions, target, labels, KeyOf(q));
      MembersAre(questions, KeyOf(q));
      var members := Members(questions, KeyOf(q));
      assert q in members;
      var i :| 0 <= i < |members| && members[i] == q;
      assert IsCurrent(t, after, members[i].id, target);
    }
    forall key | key in Keys(questions)
      ensures GroupOk(t, after, Members(questions, key)) <==> RepresentativeText(Members(questions, key)).Some?
    {
      GroupOkAfterRun(t, table, after, questions, target, labels, key);
    }
    CountTextOk(t, after, questions, Keys(questions));
  }

  lemma GroupOkAfterRun(t: Taxonomy, table: Table, after: Table, questions: seq<Question>, target: Target,
                        labels: seq<seq<string>>, key: Key)
    requires IsRun(t, table, after, questions, target, labels) && DistinctIds(questions) && TableOk(after, questions)
    requires key in Keys(questions)
    ensures GroupOk(t, after, Members(questions, key)) <==> RepresentativeText(Members(questions, key)).Some?
  {
    var members := Members(questions, key);
    KeysAre(questions);
    MembersAre(questions, key);
    TextIff(members);
    GroupAfterRun(t, table, after, questions, target, labels, key);
    var q :| q in questions && KeyOf(q) == key;
    assert q in members;
    assert members[0] in members;
    assert GroupOk(t, after, members) ==> StoredAt(after, questions, members[0]);
    if RepresentativeText(members).Some? {
      CurrentGroupOk(t, after, questions, key, target);
    }
  }

  lemma CurrentGroupOk(t: Taxonomy, table: Table, questions: seq<Question>, key: Key, target: Target)
    requires TableOk(table, questions) && Members(questions, key) != []
            && AllCurrent(t, table, Members(questions, key), target)
    ensures GroupOk(t, table, Members(questions, key))
  {
    var members := Members(questions, key);
    MembersAre(questions, key);
    assert members[0] in members && IsCurrent(t, table, members[0].id, target);
    assert StoredAt(table, questions, members[0]);
    forall i | 0 <= i < |members| ensures members[i].id in table && table[members[i].id] == table[members[0].id] {
      assert members[i] in members && IsCurrent(t, table, members[i].id, target);
      assert StoredAt(table, questions, members[i]);
    }
  }

  // ---------------------------------------------------------------- the job

  datatype RunResult = Busy | MetadataFailed | BatchFailed | Done(classified: nat, skipped: nat)

  // Higher counts first, and equal ones as the taxonomy lists them.
  predicate ShownBefore(names: seq<string>, counts: map<string, nat>, a: nat, b: nat)
    requires a < |names| && b < |names| && names[a] in counts && names[b] in counts
  {
    counts[names[a]] > counts[names[b]] || (counts[names[a]] == counts[names[b]] && a < b)
  }

  ghost predicate IsShown(names: seq<string>, counts: map<string, nat>, order: seq<nat>) {
    && (forall i :: 0 <= i < |order| ==> order[i] < |names| && names[order[i]] in counts)
    && forall i, j :: 0 <= i < j < |order| ==> ShownBefore(names, counts, order[i], order[j])
  }

  // As many different places as there are names: each name is shown exactly once.
  method Ordered(names: seq<string>, counts: map<string, nat>) returns (order: seq<nat>)
    requires forall i :: 0 <= i < |names| ==> names[i] in counts
    ensures |order| == |names| && IsShown(names, counts, order)
  {
    order := [];
    for n := 0 to |names|
      invariant |order| == n && IsShown(names, counts, order)
      invariant forall i :: 0 <= i < n ==> order[i] < n
    {
      order := Placed(names, counts, order, n);
    }
  }

  // Behind everything with at least the same count.
  method Placed(names: seq<string>, counts: map<string, nat>, order: seq<nat>, n: nat) returns (more: seq<nat>)
    requires n < |names| && names[n] in counts && IsShown(names, counts, order)
    requires forall i :: 0 <= i < |order| ==> order[i] < n
    ensures |more| == |order| + 1 && IsShown(names, counts, more)
    ensures forall i :: 0 <= i < |more| ==> more[i] <= n
  {
    var k := |order|;
    while k > 0 && counts[names[order[k - 1]]] < counts[names[n]]
      invariant 0 <= k <= |order|
      invariant forall i :: k <= i < |order| ==> counts[names[order[i]]] < counts[names[n]]
    {
      k := k - 1;
    }
    more := order[..k] + [n] + order[k..];
    PlacedIsShown(names, counts, order, n, k);
  }

  lemma PlacedIsShown(names: seq<string>, counts: map<string, nat>, order: seq<nat>, n: nat, k: nat)
    requires n < |names| && names[n] in counts && IsShown(names, counts, order) && k <= |order|
    requires forall i :: 0 <= i < |order| ==> order[i] < n
    requires k > 0 ==> counts[names[order[k - 1]]] >= counts[names[n]]
    requires forall i :: k <= i < |order| ==> counts[names[order[i]]] < counts[names[n]]
    ensures IsShown(names, counts, order[..k] + [n] + order[k..])
  {
    forall i | 0 <= i < k ensures ShownBefore(names, counts, order[i], n) {
      assert i < k - 1 ==> ShownBefore(names, counts, order[i], order[k - 1]);
    }
    assert forall i :: k <= i < |order| ==> ShownBefore(names, counts, n, order[i]);
  }

  class TopicJob {
    const t: Taxonomy
    var table: Table
    var locked: bool

    constructor (t: Taxonomy)
      ensures this.t == t && table == map[] && !locked
    {
      this.t, table, locked := t, map[], false;
    }

    method FindTodo(questions: seq<Question>, target: Target) returns (todo: seq<Key>, skipped: nat)
      ensures todo == Todo(t, table, questions, Keys(questions), target) && |todo| + skipped == |Keys(questions)|
    {
      var keys, groups := GroupQuestions(questions);
      todo, skipped := [], 0;
      for i := 0 to |keys|
        invariant todo == Todo(t, table, questions, keys[..i], target) && |todo| + skipped == i
      {
        assert keys[..i + 1][..i] == keys[..i] && keys[i] in keys;
        var members := groups[keys[i]];
        if AllCurrent(t, table, members, target) {
          skipped := skipped + 1;
        } else if RepresentativeText(members).None? {
          skipped := skipped + 1;
        } else {
          todo := todo + [keys[i]];
        }
      }
      assert keys[..|keys|] == keys;
    }

    // Batch after batch; all results stay in memory.
    method Classify(target: Target, respond: seq<string> -> Response, texts: seq<string>, size: nat)
      returns (labels: Option<seq<seq<string>>>)
      requires 1 <= size
      ensures labels == Replies(t, target, respond, texts, size)
    {
      var done: seq<seq<string>> := [];
      var start := 0;
      assert texts[0..] == texts;
      PrependEmpty(Replies(t, target, respond, texts, size));
      while start < |texts|
        invariant 0 <= start <= |texts|
        invariant Replies(t, target, respond, texts, size)
                == Prepend(done, Replies(t, target, respond, texts[start..], size))
      {
        var n := if size < |texts| - start then size else |texts| - start;
        assert texts[start..][..n] == texts[start..start + n] && texts[start..][n..] == texts[start + n..];
        var r := respond(texts[start..start + n]);
        var ok := ValidateBatch(t, target, n, r);
        if !ok {
          return None;
        }
        PrependMore(done, r.labels, Replies(t, target, respond, texts[start + n..], size));
        done := done + r.labels;
        start := start + n;
      }
      assert done + [] == done;
      return Some(done);
    }

    // One transaction at the end, or none.
    method RunClassification(questions: seq<Question>, target: Option<Target>, respond: seq<string> -> Response,
                             size: nat)
      returns (r: RunResult)
      requires 1 <= size && TaxonomyOk(t)
      modifies this`table
      ensures r.Busy? <==> locked
      ensures !r.Done? ==> table == old(table)
      ensures r.Done? <==> !locked && target.Some?
                           && Replies(t, target.value, respond, TextsTodo(t, old(table), questions, target.value),
                              size).Some?
      ensures r.Done? ==>
                var labels := Replies(t, target.value, respond, TextsTodo(t, old(table), questions, target.value),
                    size).value;
                IsRun(t, old(table), table, questions, target.value, labels)
                && r.classified == |labels| && r.classified + r.skipped == |Keys(questions)|
    {
      if locked {
        return Busy;
      }
      if target.None? {
        return MetadataFailed;
      }
      var todo, skipped := FindTodo(questions, target.value);
      var texts := TextsOf(questions, todo);
      var labels := Classify(target.value, respond, texts, size);
      if labels.None? {
        return BatchFailed;
      }
      RepliesFacts(t, target.value, respond, texts, size);
      table := WriteResults(questions, todo, labels.value, target.value);
      return Done(|todo|, skipped);
    }

    method WriteResults(questions: seq<Question>, todo: seq<Key>, labels: seq<seq<string>>, target: Target)
      returns (after: Table)
      requires |labels| == |todo|
      ensures after == WriteAll(table, questions, todo, labels, target)
    {
      after := table;
      for i := 0 to |todo|
        invariant after == WriteAll(table, questions, todo[..i], labels[..i], target)
      {
        OneMoreGroup(table, questions, todo, labels, target, i);
        after := WriteMembers(after, Members(questions, todo[i]), Stored(Some(labels[i]), target.version, target.meta));
      }
      assert todo[..|todo|] == todo && labels[..|labels|] == labels;
    }

    method WriteMembers(before: Table, members: seq<Question>, s: Stored) returns (after: Table)
      ensures after == WriteGroup(before, members, s)
    {
      after := before;
      for j := 0 to |members|
        invariant after == WriteGroup(before, members[..j], s)
      {
        assert members[..j + 1][..j] == members[..j];
        after := after[members[j].id := s];
      }
      assert members[..|members|] == members;
    }

    // None is the conflict. A stale distribution counts nothing.
    method GetDistribution(questions: seq<Question>, taxonomy: string) returns (d: Option<Distribution>)
      ensures d.None? <==> Conflict(table, questions)
      ensures d.Some? ==>
                && d.value.total == |Keys(questions)| && (d.value.stale <==> Stale(table, questions, taxonomy))
                && d.value.classified == (if d.value.stale then 0 else CountOk(t, table, questions, Keys(questions)))
                && CountsAre(t, table, questions, Keys(questions), d.value.stale, d.value.counts)
                && |d.value.order| == |t.names| && IsShown(t.names, d.value.counts, d.value.order)
    {
      var first, conflict := FindStored(table, questions);
      if conflict {
        return None;
      }
      var stale := first.Some? && first.value.meta.taxonomy != taxonomy;
      StaleIff(table, questions, taxonomy, first);
      var total, classified, counts := CountGroups(questions, stale);
      var order := Ordered(t.names, counts);
      return Some(Distribution(total, if stale then 0 else classified, counts, order, stale));
    }

    method CountGroups(questions: seq<Question>, stale: bool)
      returns (total: nat, classified: nat, counts: map<string, nat>)
      ensures total == |Keys(questions)| && classified == CountOk(t, table, questions, Keys(questions))
      ensures CountsAre(t, table, questions, Keys(questions), stale, counts)
    {
      var keys, groups := GroupQuestions(questions);
      total := |keys|;
      counts, classified := NoCounts(t), 0;
      for i := 0 to |keys|
        invariant classified == CountOk(t, table, questions, keys[..i])
        invariant CountsAre(t, table, questions, keys[..i], stale, counts)
      {
        assert keys[i] in keys;
        ghost var before := counts;
        var isOk;
        isOk, counts := CountMembers(counts, groups[keys[i]], stale);
        classified := classified + if isOk then 1 else 0;
        CountsMore(t, table, questions, keys, i, stale, before, counts);
      }
      assert keys[..|keys|] == keys;
    }

    // One group, if it has one legal result.
    method CountMembers(counts: map<string, nat>, members: seq<Question>, stale: bool)
      returns (isOk: bool, after: map<string, nat>)
      requires counts.Keys == set l | l in t.names
      ensures isOk <==> GroupOk(t, table, members)
      ensures after.Keys == counts.Keys
      ensures forall l :: l in counts ==>
                after[l] == counts[l] + if !stale && HasLabel(t, table, members, l) then 1 else 0
    {
      isOk, after := GroupOk(t, table, members), counts;
      if isOk && !stale {
        after := CountGroup(counts, table[members[0].id].labels.value);
      }
    }

    // Each label once, however often the group repeats it.
    method CountGroup(counts: map<string, nat>, labels: seq<string>) returns (after: map<string, nat>)
      requires forall i :: 0 <= i < |labels| ==> labels[i] in counts
      ensures after.Keys == counts.Keys
      ensures forall l :: l in counts ==> after[l] == counts[l] + if l in labels then 1 else 0
    {
      after := counts;
      for i := 0 to |labels|
        invariant after.Keys == counts.Keys
        invariant forall l :: l in counts ==> after[l] == counts[l] + if l in labels[..i] then 1 else 0
      {
        assert labels[..i + 1] == labels[..i] + [labels[i]];
        if labels[i] !in labels[..i] {
          after := after[labels[i] := after[labels[i]] + 1];
        }
      }
      assert labels[..|labels|] == labels;
    }
  }

  lemma OneMoreGroup(table: Table, questions: seq<Question>, keys: seq<Key>, labels: seq<seq<string>>, target: Target,
                     i: nat)
    requires |labels| == |keys| && i < |keys|
    ensures WriteAll(table, questions, keys[..i + 1], labels[..i + 1], target)
            == WriteGroup(WriteAll(table, questions, keys[..i], labels[..i], target), Members(questions, keys[i]),
                          Stored(Some(labels[i]), target.version, target.meta))
  {
    assert keys[..i + 1][..i] == keys[..i] && labels[..i + 1][..i] == labels[..i];
  }

  function Prepend(done: seq<seq<string>>, rest: Option<seq<seq<string>>>): Option<seq<seq<string>>> {
    if rest.Some? then Some(done + rest.value) else None
  }

  lemma PrependEmpty(rest: Option<seq<seq<string>>>)
    ensures Prepend([], rest) == rest
  {
    if rest.Some? {
      assert [] + rest.value == rest.value;
    }
  }

  lemma PrependMore(done: seq<seq<string>>, labels: seq<seq<string>>, rest: Option<seq<seq<string>>>)
    ensures Prepend(done, Prepend(labels, rest)) == Prepend(done + labels, rest)
  {
    if rest.Some? {
      assert done + (labels + rest.value) == (done + labels) + rest.value;
    }
  }

  lemma StaleIff(table: Table, questions: seq<Question>, taxonomy: string, first: Option<Stored>)
    requires !Conflict(table, questions)
    requires first.None? <==> forall q :: !StoredAt(table, questions, q)
    requires first.Some? ==> exists q :: StoredAt(table, questions, q) && table[q.id] == first.value
    ensures Stale(table, questions, taxonomy) <==> first.Some? && first.value.meta.taxonomy != taxonomy
  {
  }
}
