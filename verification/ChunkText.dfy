/** Text pieces the chunker works with: lines, sentences, hard cuts and table rows (app/knowledge/chunking.py). What a
    text says is measured by its ink, the characters left when whitespace is removed: pieces that spell a text have
    its ink when put together. Splitting at sentence ends, cutting at the limit and filling table pieces behind a
    repeated header all come down to that, and to the bound on the length of a piece; so do the conservation results
    of the modules that pack these pieces. */
module ChunkText {
  import opened Basics

  // ---------------------------------------------------------------- text without its whitespace

  function Squeeze(s: string): string {
    if s == "" then ""
    else Squeeze(s[..|s| - 1]) + if IsSpace(s[|s| - 1]) then "" else [s[|s| - 1]]
  }

  lemma {:induction false} SqueezeConcat(a: string, b: string)
    ensures Squeeze(a + b) == Squeeze(a) + Squeeze(b)
  {
    if b == "" {
      assert a + b == a;
    } else {
      SqueezeConcat(a, b[..|b| - 1]);
      assert (a + b)[..|a + b| - 1] == a + b[..|b| - 1];
    }
  }

  lemma {:induction false} SqueezeBlank(s: string)
    ensures Squeeze(s) == "" <==> Blank(s)
  {
    if s != "" {
      var init := s[..|s| - 1];
      SqueezeBlank(init);
      assert Blank(s) <==> Blank(init) && IsSpace(s[|s| - 1]) by {
        assert forall i :: 0 <= i < |init| ==> init[i] == s[i];
      }
    }
  }

  lemma {:induction false} SqueezeStripLeft(s: string)
    ensures Squeeze(StripLeft(s)) == Squeeze(s)
  {
    if s != "" && IsSpace(s[0]) {
      SqueezeStripLeft(s[1..]);
      assert s == s[..1] + s[1..];
      SqueezeConcat(s[..1], s[1..]);
      SqueezeBlank(s[..1]);
    }
  }

  lemma {:induction false} SqueezeStripRight(s: string)
    ensures Squeeze(StripRight(s)) == Squeeze(s)
  {
    if s != "" && IsSpace(s[|s| - 1]) {
      SqueezeStripRight(s[..|s| - 1]);
    }
  }

  lemma SqueezeStrip(s: string)
    ensures Squeeze(Strip(s)) == Squeeze(s)
  {
    SqueezeStripLeft(s);
    SqueezeStripRight(StripLeft(s));
  }

  // ---------------------------------------------------------------- lines

  // Text put behind the last of some texts.
  function Behind(texts: seq<string>, more: string): (r: seq<string>)
    requires texts != []
    ensures |r| == |texts|
  {
    texts[..|texts| - 1] + [texts[|texts| - 1] + more]
  }

  lemma BehindTwice(texts: seq<string>, a: string, b: string)
    requires texts != []
    ensures Behind(Behind(texts, a), b) == Behind(texts, a + b)
  {
    assert (texts[|texts| - 1] + a) + b == texts[|texts| - 1] + (a + b);
  }

  lemma BehindNothing(texts: seq<string>)
    requires texts != []
    ensures Behind(texts, "") == texts
  {
    assert texts[|texts| - 1] + "" == texts[|texts| - 1];
  }

  function SplitLines(s: string): (lines: seq<string>)
    ensures lines != []
  {
    if s == "" then [""]
    else
      var init := SplitLines(s[..|s| - 1]);
      if s[|s| - 1] == '\n' then init + [""]
      else Behind(init, [s[|s| - 1]])
  }

  function Join(lines: seq<string>): string {
    if lines == [] then ""
    else if |lines| == 1 then lines[0]
    else Join(lines[..|lines| - 1]) + "\n" + lines[|lines| - 1]
  }

  lemma SplitMore(s: string, c: char)
    ensures var lines := SplitLines(s);
            SplitLines(s + [c]) == if c == '\n' then lines + [""] else Behind(lines, [c])
  {
    assert (s + [c])[..|s|] == s;
  }

  lemma JoinMore(lines: seq<string>)
    requires lines != []
    ensures Join(lines + [""]) == Join(lines) + "\n"
  {
    assert (lines + [""])[..|lines|] == lines;
  }

  lemma {:induction false} JoinSplit(s: string)
    ensures Join(SplitLines(s)) == s
  {
    if s != "" {
      var init, c := s[..|s| - 1], s[|s| - 1];
      JoinSplit(init);
      SplitMore(init, c);
      JoinMore(SplitLines(init));
      JoinLonger(SplitLines(init), c);
      assert init + [c] == s;
    }
  }

  lemma JoinLonger(lines: seq<string>, c: char)
    requires lines != []
    ensures Join(Behind(lines, [c])) == Join(lines) + [c]
  {
    var longer := Behind(lines, [c]);
    assert longer[..|longer| - 1] == lines[..|lines| - 1];
  }

  predicate IsLine(line: string) {
    '\n' !in line
  }

  lemma {:induction false} SplitBehind(s: string, line: string)
    requires IsLine(line)
    ensures SplitLines(s + line) == Behind(SplitLines(s), line)
  {
    if line == "" {
      assert s + line == s;
      BehindNothing(SplitLines(s));
    } else {
      var init, c := line[..|line| - 1], line[|line| - 1];
      SplitBehind(s, init);
      SplitNext(s + init, SplitLines(s), init, c);
      assert (s + init) + [c] == s + line && init + [c] == line;
    }
  }

  lemma SplitNext(front: string, lines: seq<string>, line: string, c: char)
    requires lines != [] && SplitLines(front) == Behind(lines, line) && c != '\n'
    ensures SplitLines(front + [c]) == Behind(lines, line + [c])
  {
    SplitMore(front, c);
    BehindTwice(lines, line, [c]);
  }

  ghost predicate AreLines(lines: seq<string>) {
    forall i :: 0 <= i < |lines| ==> IsLine(lines[i])
  }

  // The other way round, for lines that are lines.
  lemma {:induction false} SplitJoin(lines: seq<string>)
    requires lines != [] && AreLines(lines)
    ensures SplitLines(Join(lines)) == lines
  {
    var n := |lines| - 1;
    if n == 0 {
      SplitBehind("", lines[0]);
      assert "" + lines[0] == lines[0];
    } else {
      SplitJoin(lines[..n]);
      SplitLast(Join(lines[..n]), lines[..n], lines[n]);
      assert lines[..n] + [lines[n]] == lines;
    }
  }

  lemma SplitLast(front: string, lines: seq<string>, line: string)
    requires SplitLines(front) == lines && IsLine(line)
    ensures SplitLines(front + "\n" + line) == lines + [line]
  {
    SplitMore(front, '\n');
    SplitBehind(front + "\n", line);
    assert "" + line == line;
  }

  function Concat(pieces: seq<string>): string {
    if pieces == [] then "" else Concat(pieces[..|pieces| - 1]) + pieces[|pieces| - 1]
  }

  lemma {:induction false} ConcatConcat(a: seq<string>, b: seq<string>)
    ensures Concat(a + b) == Concat(a) + Concat(b)
  {
    if b == [] {
      assert a + b == a;
    } else {
      ConcatConcat(a, b[..|b| - 1]);
      assert (a + b)[..|a + b| - 1] == a + b[..|b| - 1];
    }
  }

  lemma ConcatOne(s: string)
    ensures Concat([s]) == s
  {
    assert [s][..0] == [];
  }

  // The ink of some lines: everything but whitespace.
  function Squeezes(lines: seq<string>): (inks: seq<string>)
    ensures |inks| == |lines| && forall i :: 0 <= i < |inks| ==> inks[i] == Squeeze(lines[i])
  {
    seq(|lines|, i requires 0 <= i < |lines| => Squeeze(lines[i]))
  }

  function Ink(lines: seq<string>): string {
    Concat(Squeezes(lines))
  }

  lemma InkConcat(a: seq<string>, b: seq<string>)
    ensures Ink(a + b) == Ink(a) + Ink(b)
  {
    assert Squeezes(a + b) == Squeezes(a) + Squeezes(b);
    ConcatConcat(Squeezes(a), Squeezes(b));
  }

  lemma InkOne(line: string)
    ensures Ink([line]) == Squeeze(line)
  {
    assert Squeezes([line]) == [Squeeze(line)];
    ConcatOne(Squeeze(line));
  }

  lemma {:induction false} SqueezeJoin(lines: seq<string>)
    ensures Squeeze(Join(lines)) == Ink(lines)
  {
    if |lines| > 1 {
      var init, last := lines[..|lines| - 1], lines[|lines| - 1];
      SqueezeJoin(init);
      assert lines == init + [last];
      InkConcat(init, [last]);
      InkOne(last);
      SqueezeConcat(Join(init) + "\n", last);
      SqueezeConcat(Join(init), "\n");
      SqueezeBlank("\n");
    } else if |lines| == 1 {
      assert lines == [lines[0]];
      InkOne(lines[0]);
    }
  }

  // ---------------------------------------------------------------- sentences

  predicate IsSentenceEnd(c: char) {
    c as int == 0x3002 || c as int == 0xFF01 || c as int == 0xFF1F || c == '!' || c == '?'
  }

  predicate Closed(sentence: string) {
    sentence != "" && IsSentenceEnd(sentence[|sentence| - 1])
  }

  function SplitSentences(text: string): seq<string> {
    if text == "" then []
    else
      var init := SplitSentences(text[..|text| - 1]);
      if init == [] || Closed(init[|init| - 1]) then init + [text[|text| - 1..]]
      else init[..|init| - 1] + [init[|init| - 1] + text[|text| - 1..]]
  }

  // Positions where a sentence begins or the text ends.
  predicate IsBoundary(text: string, k: nat) {
    k <= |text| && (k == 0 || IsSentenceEnd(text[k - 1]))
  }

  // The pieces spell the text, none is empty, and they meet exactly where a sentence ends.
  ghost predicate AreSentences(pieces: seq<string>, text: string) {
    && Concat(pieces) == text
    && (forall i :: 0 <= i < |pieces| ==> pieces[i] != "" && InnerOpen(pieces[i]))
    && (forall i :: 0 <= i < |pieces| - 1 ==> Closed(pieces[i]))
  }

  predicate InnerOpen(piece: string) {
    forall k :: 0 <= k < |piece| - 1 ==> !IsSentenceEnd(piece[k])
  }

  lemma {:induction false} SplitIsSentences(text: string)
    ensures AreSentences(SplitSentences(text), text)
  {
    if text != "" {
      var init, last := SplitSentences(text[..|text| - 1]), text[|text| - 1..];
      SplitIsSentences(text[..|text| - 1]);
      if init == [] || Closed(init[|init| - 1]) {
        NextSentence(init, text[..|text| - 1], last);
      } else {
        SameSentence(init, text[..|text| - 1], last);
      }
      assert text == text[..|text| - 1] + last;
    }
  }

  lemma NextSentence(pieces: seq<string>, text: string, last: string)
    requires AreSentences(pieces, text) && |last| == 1 && (pieces == [] || Closed(pieces[|pieces| - 1]))
    ensures AreSentences(pieces + [last], text + last)
  {
    ConcatConcat(pieces, [last]);
    ConcatOne(last);
  }

  lemma SameSentence(pieces: seq<string>, text: string, last: string)
    requires AreSentences(pieces, text) && |last| == 1 && pieces != [] && !Closed(pieces[|pieces| - 1])
    ensures AreSentences(pieces[..|pieces| - 1] + [pieces[|pieces| - 1] + last], text + last)
  {
    var n := |pieces| - 1;
    ConcatConcat(pieces[..n], [pieces[n] + last]);
    ConcatOne(pieces[n] + last);
    assert Concat(pieces) == Concat(pieces[..n]) + pieces[n];
  }

  // Inside a sentence there is no boundary.
  lemma NoBoundaryInside(text: string, before: string, piece: string, after: string, k: nat)
    requires text == before + piece + after && InnerOpen(piece)
    requires |before| < k < |before| + |piece|
    ensures !IsBoundary(text, k)
  {
    assert text[k - 1] == piece[k - 1 - |before|];
  }

  function TrimNewlines(s: string): string {
    if s != "" && s[0] == '\n' then TrimNewlines(s[1..]) else s
  }

  // Where the longest run of whole sentences within the budget begins.
  ghost predicate IsOverlapStart(text: string, budget: int, k: nat) {
    && IsBoundary(text, k) && |text| - k <= budget
    && forall j: nat :: IsBoundary(text, j) && |text| - j <= budget ==> k <= j
  }

  // The end of text taken over into the next chunk: nothing if the text does not end with a sentence, otherwise its
  // longest whole-sentence suffix within the budget, less the line breaks it begins with.
  method SentenceSuffix(text: string, budget: int) returns (best: string)
    ensures budget <= 0 || !Closed(text) ==> best == ""
    ensures 0 < budget && Closed(text) ==>
            exists k: nat :: IsOverlapStart(text, budget, k) && best == TrimNewlines(text[k..])
  {
    if budget <= 0 || !Closed(text) {
      return "";
    }
    var pieces := SplitSentences(text);
    SplitIsSentences(text);
    best := "";
    var i := |pieces|;
    assert pieces[..i] == pieces;
    while i > 0
      invariant 0 <= i <= |pieces| && |best| <= budget
      invariant Concat(pieces[..i]) + best == text
      invariant IsBoundary(text, |Concat(pieces[..i])|)
      invariant forall j: nat :: IsBoundary(text, j) && |text| - j <= budget ==>
              j <= |Concat(pieces[..i])| || |Concat(pieces[..i])| <= j
    {
      var candidate := pieces[i - 1] + best;
      SentenceStep(text, pieces, i, best);
      if |candidate| > budget {
        break;
      }
      best := candidate;
      i := i - 1;
    }
    ghost var k := |Concat(pieces[..i])|;
    assert text[k..] == best;
    assert IsOverlapStart(text, budget, k);
    best := TrimNewlines(best);
  }

  lemma SentenceStep(text: string, pieces: seq<string>, i: nat, best: string)
    requires AreSentences(pieces, text) && 0 < i <= |pieces| && Concat(pieces[..i]) + best == text
    ensures Concat(pieces[..i - 1]) + (pieces[i - 1] + best) == text
    ensures IsBoundary(text, |Concat(pieces[..i - 1])|)
    ensures forall j: nat :: IsBoundary(text, j) && j < |Concat(pieces[..i])| ==> j <= |Concat(pieces[..i - 1])|
  {
    var before := Concat(pieces[..i - 1]);
    assert pieces[..i][..i - 1] == pieces[..i - 1];
    assert text == before + pieces[i - 1] + best;
    if i > 1 {
      assert pieces[..i - 1][..i - 2] == pieces[..i - 2];
      assert before == Concat(pieces[..i - 2]) + pieces[i - 2];
      assert text[|before| - 1] == pieces[i - 2][|pieces[i - 2]| - 1];
    } else {
      assert before == "";
    }
    forall j: nat | IsBoundary(text, j) && j < |before| + |pieces[i - 1]| ensures j <= |before| {
      if |before| < j {
        NoBoundaryInside(text, before, pieces[i - 1], best, j);
      }
    }
  }

  // ---------------------------------------------------------------- units of a paragraph

  function HardCut(text: string, maxChars: nat): (pieces: seq<string>)
    requires 1 <= maxChars
  {
    if text == "" then []
    else if |text| <= maxChars then [text]
    else [text[..maxChars]] + HardCut(text[maxChars..], maxChars)
  }

  // Full pieces, except that the last one may be shorter.
  ghost predicate AreCuts(pieces: seq<string>, maxChars: nat) {
    forall i :: 0 <= i < |pieces| ==> 1 <= |pieces[i]| <= maxChars && (i < |pieces| - 1 ==> |pieces[i]| == maxChars)
  }

  lemma {:induction false} HardCutSpells(text: string, maxChars: nat)
    requires 1 <= maxChars
    ensures Concat(HardCut(text, maxChars)) == text && (text != "" ==> HardCut(text, maxChars) != [])
  {
    if |text| > maxChars {
      var first, rest := text[..maxChars], HardCut(text[maxChars..], maxChars);
      HardCutSpells(text[maxChars..], maxChars);
      ConcatConcat([first], rest);
      ConcatOne(first);
    } else if text != "" {
      ConcatOne(text);
    }
  }

  lemma {:induction false} HardCutFacts(text: string, maxChars: nat)
    requires 1 <= maxChars
    ensures AreCuts(HardCut(text, maxChars), maxChars)
  {
    if |text| > maxChars {
      HardCutFacts(text[maxChars..], maxChars);
      var first, rest := text[..maxChars], HardCut(text[maxChars..], maxChars);
      HardCutSpells(text[maxChars..], maxChars);
      assert forall i :: 0 < i < |[first] + rest| ==> ([first] + rest)[i] == rest[i - 1];
    }
  }

  datatype Unit = Unit(text: string, hard: bool)

  function Texts(units: seq<Unit>): (texts: seq<string>)
    ensures |texts| == |units| && forall i :: 0 <= i < |texts| ==> texts[i] == units[i].text
  {
    seq(|units|, i requires 0 <= i < |units| => units[i].text)
  }

  function HardUnits(text: string, maxChars: nat): (units: seq<Unit>)
    requires 1 <= maxChars
    ensures Texts(units) == HardCut(text, maxChars) && forall i :: 0 <= i < |units| ==> units[i].hard
  {
    var pieces := HardCut(text, maxChars);
    var units := seq(|pieces|, i requires 0 <= i < |pieces| => Unit(pieces[i], true));
    assert Texts(units) == pieces;
    units
  }

  function SentenceUnits(sentence: string, maxChars: nat): seq<Unit>
    requires 1 <= maxChars
  {
    if |sentence| <= maxChars then [Unit(sentence, false)] else HardUnits(sentence, maxChars)
  }

  function AllSentenceUnits(sentences: seq<string>, maxChars: nat): seq<Unit>
    requires 1 <= maxChars
  {
    if sentences == [] then []
    else AllSentenceUnits(sentences[..|sentences| - 1], maxChars) + SentenceUnits(sentences[|sentences| - 1], maxChars)
  }

  // A paragraph that fits is one unit; otherwise its sentences are, and a sentence that does not fit is cut.
  function UnitsOf(text: string, maxChars: nat): seq<Unit>
    requires 1 <= maxChars
  {
    if |text| <= maxChars then [Unit(text, false)] else AllSentenceUnits(SplitSentences(text), maxChars)
  }

  method ParaUnits(text: string, maxChars: nat) returns (units: seq<Unit>)
    requires 1 <= maxChars
    ensures units == UnitsOf(text, maxChars)
  {
    if |text| <= maxChars {
      return [Unit(text, false)];
    }
    units := [];
    var sentences := SplitSentences(text);
    for i := 0 to |sentences|
      invariant units == AllSentenceUnits(sentences[..i], maxChars)
    {
      assert sentences[..i + 1][..i] == sentences[..i];
      if |sentences[i]| <= maxChars {
        units := units + [Unit(sentences[i], false)];
      } else {
        units := units + HardUnits(sentences[i], maxChars);
      }
    }
    assert sentences[..|sentences|] == sentences;
  }

  // Units are never empty and never too long, and spell the paragraph.
  ghost predicate AreUnits(units: seq<Unit>, text: string, maxChars: nat) {
    && Concat(Texts(units)) == text
    && forall i :: 0 <= i < |units| ==> 1 <= |units[i].text| <= maxChars
  }

  lemma AreUnitsConcat(a: seq<Unit>, s: string, b: seq<Unit>, t: string, maxChars: nat)
    requires AreUnits(a, s, maxChars) && AreUnits(b, t, maxChars)
    ensures AreUnits(a + b, s + t, maxChars)
  {
    assert Texts(a + b) == Texts(a) + Texts(b);
    ConcatConcat(Texts(a), Texts(b));
  }

  lemma SentenceUnitsFacts(sentence: string, maxChars: nat)
    requires 1 <= maxChars && sentence != ""
    ensures AreUnits(SentenceUnits(sentence, maxChars), sentence, maxChars)
  {
    if |sentence| <= maxChars {
      assert Texts([Unit(sentence, false)]) == [sentence];
      ConcatOne(sentence);
    } else {
      HardCutFacts(sentence, maxChars);
      HardCutSpells(sentence, maxChars);
      var units := HardUnits(sentence, maxChars);
      assert forall i :: 0 <= i < |units| ==> units[i].text == HardCut(sentence, maxChars)[i];
    }
  }

  lemma {:induction false} AllSentenceUnitsFacts(sentences: seq<string>, maxChars: nat)
    requires 1 <= maxChars && forall i :: 0 <= i < |sentences| ==> sentences[i] != ""
    ensures AreUnits(AllSentenceUnits(sentences, maxChars), Concat(sentences), maxChars)
  {
    if sentences != [] {
      var init, last := sentences[..|sentences| - 1], sentences[|sentences| - 1];
      AllSentenceUnitsFacts(init, maxChars);
      SentenceUnitsFacts(last, maxChars);
      AreUnitsConcat(AllSentenceUnits(init, maxChars), Concat(init), SentenceUnits(last, maxChars), last, maxChars);
    }
  }

  // In particular the list is not empty: the whole-paragraph fallback after the loop in _para_units is never taken.
  lemma UnitsFacts(text: string, maxChars: nat)
    requires 1 <= maxChars && text != ""
    ensures AreUnits(UnitsOf(text, maxChars), text, maxChars) && UnitsOf(text, maxChars) != []
  {
    if |text| <= maxChars {
      SentenceUnitsFacts(text, maxChars);
    } else {
      SplitIsSentences(text);
      AllSentenceUnitsFacts(SplitSentences(text), maxChars);
      assert Texts([]) == [];
    }
  }

  // ---------------------------------------------------------------- tables

  datatype ChunkError = NoTitle | TableTooShort(line: nat) | HeaderTooLong(line: nat) | RowTooLong(line: nat) | NoBody

  datatype Result<T> = Ok(value: T) | Err(error: ChunkError)

  predicate RowFits(header: string, row: string, maxChars: nat) {
    |header| + 1 + |row| <= maxChars
  }

  function FirstLongRow(header: string, rows: seq<string>, maxChars: nat): (k: nat)
    ensures k <= |rows| && forall i :: 0 <= i < k ==> RowFits(header, rows[i], maxChars)
    ensures k < |rows| ==> !RowFits(header, rows[k], maxChars)
  {
    if rows == [] || !RowFits(header, rows[0], maxChars) then 0
    else
      var k := 1 + FirstLongRow(header, rows[1..], maxChars);
      assert forall i :: 0 < i < k ==> rows[i] == rows[1..][i - 1];
      k
  }

  function TableError(text: string, maxChars: nat, base: nat): Option<ChunkError> {
    var lines := SplitLines(text);
    if |lines| < 2 then Some(TableTooShort(base))
    else
      var header := Join(lines[..2]);
      var k := FirstLongRow(header, lines[2..], maxChars);
      if |header| > maxChars then Some(HeaderTooLong(base))
      else if k < |lines| - 2 then Some(RowTooLong(base + k + 2)) else None
  }

  // Rows are added to the current piece while they fit; the next piece begins with the header again.
  function PiecesFrom(header: string, cur: string, rows: seq<string>, maxChars: nat): (pieces: seq<string>)
    ensures pieces != []
    decreases |rows|
  {
    if rows == [] then [cur]
    else if |cur| + 1 + |rows[0]| > maxChars
    then [cur] + PiecesFrom(header, header + "\n" + rows[0], rows[1..], maxChars)
    else PiecesFrom(header, cur + "\n" + rows[0], rows[1..], maxChars)
  }

  method TableChunks(text: string, maxChars: nat, base: nat) returns (r: Result<seq<string>>)
    ensures TableError(text, maxChars, base).Some? ==> r == Err(TableError(text, maxChars, base).value)
    ensures TableError(text, maxChars, base).None? ==>
              var lines, header := SplitLines(text), Join(SplitLines(text)[..2]);
              r == Ok(PiecesFrom(header, header, lines[2..], maxChars))
  {
    var lines := SplitLines(text);
    if |lines| < 2 {
      return Err(TableTooShort(base));
    }
    var header := Join(lines[..2]);
    if |header| > maxChars {
      return Err(HeaderTooLong(base));
    }
    var rows := lines[2..];
    var chunks: seq<string>, cur := [], header;
    ghost var long := FirstLongRow(header, rows, maxChars);
    for i := 0 to |rows|
      invariant i <= long
      invariant chunks + PiecesFrom(header, cur, rows[i..], maxChars) == PiecesFrom(header, header, rows, maxChars)
    {
      var row := rows[i];
      assert rows[i..][0] == row && rows[i..][1..] == rows[i + 1..];
      if |header| + 1 + |row| > maxChars {
        assert i == long;
        return Err(RowTooLong(base + i + 2));
      }
      if |cur| + 1 + |row| > maxChars {
        chunks := chunks + [cur];
        cur := header;
      }
      cur := cur + "\n" + row;
    }
    return Ok(chunks + [cur]);
  }

  function Drop(s: string, n: nat): string {
    if n <= |s| then s[n..] else ""
  }
}
