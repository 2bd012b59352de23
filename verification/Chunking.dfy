/** Cutting a Markdown document into knowledge chunks (app/knowledge/chunking.py): the sections, and the document. Lines
    are read into sections under heading paths, the text in front is merged into the first section that says something,
    and each section is packed into answers. What is proved is where every piece of text ends up: under which path, in
    which stretch of chunks, and what an FAQ drops. */
module Chunking {
  import opened Basics
  import opened ChunkText
  import opened ChunkPacking

  datatype DocType = Faq | Policy | Manual

  datatype Heading = Heading(level: nat, text: string)

  datatype Section = Section(stack: seq<string>, blocks: seq<Block>)

  datatype Chunk = Chunk(category: string, questions: string, answer: Answer, path: seq<string>)

  function Hashes(line: string): nat {
    if line != "" && line[0] == '#' then 1 + Hashes(line[1..]) else 0
  }

  // One to three hashes, whitespace, and a text.
  function HeadingOf(line: string): (h: Option<Heading>)
    ensures h.Some? ==> 1 <= h.value.level <= 3
  {
    var k := Hashes(line);
    if 1 <= k <= 3 && k < |line| && IsSpace(line[k]) && Strip(line[k..]) != ""
    then Some(Heading(k, Strip(line[k..]))) else None
  }

  function SplitLevels(t: DocType): set<nat> {
    if t.Faq? then {1, 2} else {1, 2, 3}
  }

  // The heading a line splits the document with, if it does.
  function SplitAt(line: string, levels: set<nat>): (h: Option<Heading>)
    ensures h.Some? ==> 1 <= h.value.level <= 3
  {
    if HeadingOf(line).Some? && HeadingOf(line).value.level in levels then HeadingOf(line) else None
  }

  // The ink of the body without its split headings.
  function InkUnder(line: string, h: Option<Heading>): string {
    if h.Some? then "" else Squeeze(line)
  }

  function LineInk(line: string, levels: set<nat>): string {
    InkUnder(line, SplitAt(line, levels))
  }

  function BodyInk(lines: seq<string>, levels: set<nat>): string {
    if lines == [] then "" else BodyInk(lines[..|lines| - 1], levels) + LineInk(lines[|lines| - 1], levels)
  }

  // The headings above the end of these lines.
  function PathAt(lines: seq<string>, levels: set<nat>): seq<string> {
    if lines == [] then []
    else PathAfter(PathAt(lines[..|lines| - 1], levels), SplitAt(lines[|lines| - 1], levels))
  }

  function PathAfter(stack: seq<string>, h: Option<Heading>): seq<string>
    requires h.Some? ==> h.value.level >= 1
  {
    if h.Some? then Under(stack, h.value) else stack
  }

  function Under(stack: seq<string>, h: Heading): (r: seq<string>)
    requires h.level >= 1
    ensures r != [] && r[|r| - 1] == h.text && |r| <= h.level && r[..|r| - 1] <= stack
  {
    (if h.level - 1 <= |stack| then stack[..h.level - 1] else stack) + [h.text]
  }

  function PathsOf(lines: seq<string>, levels: set<nat>): seq<seq<string>> {
    if lines == [] then []
    else
      PathsOf(lines[..|lines| - 1], levels)
      + if SplitAt(lines[|lines| - 1], levels).Some? then [PathAt(lines, levels)] else []
  }

  // The ink in front of the first heading, then the ink under each heading.
  function InksOf(lines: seq<string>, levels: set<nat>): (inks: seq<string>)
    ensures inks != []
  {
    if lines == [] then [""]
    else InksAfter(InksOf(lines[..|lines| - 1], levels), lines[|lines| - 1], SplitAt(lines[|lines| - 1], levels))
  }

  function InksAfter(inks: seq<string>, line: string, h: Option<Heading>): (r: seq<string>)
    requires inks != []
    ensures r != []
  {
    if h.Some? then inks + [""] else Behind(inks, Squeeze(line))
  }

  lemma BehindInk(inks: seq<string>, more: string)
    requires inks != []
    ensures Concat(Behind(inks, more)) == Concat(inks) + more
  {
    var n := |inks| - 1;
    assert Behind(inks, more)[..n] == inks[..n];
  }

  lemma {:induction false} InksSpell(lines: seq<string>, levels: set<nat>)
    ensures Concat(InksOf(lines, levels)) == BodyInk(lines, levels)
    ensures |InksOf(lines, levels)| == |PathsOf(lines, levels)| + 1
  {
    if lines == [] {
      ConcatOne("");
    } else {
      var init, line := lines[..|lines| - 1], lines[|lines| - 1];
      var inks := InksOf(init, levels);
      InksSpell(init, levels);
      BehindInk(inks, Squeeze(line));
      assert (inks + [""])[..|inks|] == inks;
    }
  }

  // The first section with text, or their number if none has any.
  function FirstText(inks: seq<string>): (i: nat)
    ensures i <= |inks| && forall k :: 0 <= k < i ==> inks[k] == ""
    ensures i < |inks| ==> inks[i] != ""
  {
    if inks == [] || inks[0] != "" then 0 else 1 + FirstText(inks[1..])
  }

  // The text in front of the first heading goes with the first section that has text, or makes one of its own.
  function WithFront(front: string, inks: seq<string>): seq<string> {
    var i := FirstText(inks);
    if front == "" then inks
    else if i < |inks| then inks[i := front + inks[i]]
    else [front] + inks
  }

  function PathsWithFront(front: string, inks: seq<string>, paths: seq<seq<string>>, title: string): seq<seq<string>> {
    if front != "" && FirstText(inks) == |inks| then [[title]] + paths else paths
  }

  // The ink of each section of a body, and the heading path it stands under.
  function PlacedInks(lines: seq<string>, levels: set<nat>): seq<string> {
    WithFront(InksOf(lines, levels)[0], InksOf(lines, levels)[1..])
  }

  function PlacedPaths(lines: seq<string>, levels: set<nat>, title: string): seq<seq<string>> {
    PathsWithFront(InksOf(lines, levels)[0], InksOf(lines, levels)[1..], PathsOf(lines, levels), title)
  }

  lemma {:induction false} EmptyInks(inks: seq<string>)
    requires forall k :: 0 <= k < |inks| ==> inks[k] == ""
    ensures Concat(inks) == ""
  {
    if inks != [] {
      EmptyInks(inks[..|inks| - 1]);
    }
  }

  lemma WithFrontInk(front: string, inks: seq<string>)
    ensures Concat(WithFront(front, inks)) == front + Concat(inks)
  {
    var i := FirstText(inks);
    ConcatOne(front);
    if front == "" {
      assert front + Concat(inks) == Concat(inks);
    } else if i < |inks| {
      EmptyInks(inks[..i]);
      SplitInk(inks, i, inks[i]);
      SplitInk(inks, i, front + inks[i]);
      assert inks[i := inks[i]] == inks;
    } else {
      ConcatConcat([front], inks);
    }
  }

  lemma SplitInk(inks: seq<string>, i: nat, ink: string)
    requires i < |inks| && Concat(inks[..i]) == ""
    ensures Concat(inks[i := ink]) == ink + Concat(inks[i + 1..])
  {
    assert inks[i := ink] == inks[..i] + ([ink] + inks[i + 1..]);
    ConcatConcat(inks[..i], [ink] + inks[i + 1..]);
    ConcatConcat([ink], inks[i + 1..]);
    ConcatOne(ink);
  }

  function SectionInks(sections: seq<Section>): (inks: seq<string>)
    ensures |inks| == |sections| && forall i :: 0 <= i < |inks| ==> inks[i] == BlocksInk(sections[i].blocks)
  {
    seq(|sections|, i requires 0 <= i < |sections| => BlocksInk(sections[i].blocks))
  }

  function SectionsInk(sections: seq<Section>): string {
    Concat(SectionInks(sections))
  }

  lemma SectionsInkConcat(a: seq<Section>, b: seq<Section>)
    ensures SectionsInk(a + b) == SectionsInk(a) + SectionsInk(b)
  {
    assert SectionInks(a + b) == SectionInks(a) + SectionInks(b);
    ConcatConcat(SectionInks(a), SectionInks(b));
  }

  lemma SectionsInkOne(s: Section)
    ensures SectionsInk([s]) == BlocksInk(s.blocks)
  {
    assert SectionInks([s]) == [BlocksInk(s.blocks)];
    ConcatOne(BlocksInk(s.blocks));
  }

  function Stacks(sections: seq<Section>): (r: seq<seq<string>>)
    ensures |r| == |sections| && forall i :: 0 <= i < |r| ==> r[i] == sections[i].stack
  {
    seq(|sections|, i requires 0 <= i < |sections| => sections[i].stack)
  }

  ghost predicate NoBlank(blocks: seq<Block>) {
    forall i :: 0 <= i < |blocks| ==> !Blank(blocks[i].text)
  }

  ghost predicate NoBlankLines(lines: seq<string>) {
    forall i :: 0 <= i < |lines| ==> !Blank(lines[i])
  }

  lemma NoBlankInk(lines: seq<string>)
    requires NoBlankLines(lines) && lines != []
    ensures Ink(lines) != ""
  {
    var init, last := lines[..|lines| - 1], lines[|lines| - 1];
    assert lines == init + [last];
    InkConcat(init, [last]);
    InkOne(last);
    SqueezeBlank(last);
  }

  lemma JoinedLinesInk(lines: seq<string>)
    requires NoBlankLines(lines) && lines != []
    ensures Squeeze(Join(lines)) == Ink(lines) && !Blank(Join(lines))
    ensures Squeeze(Strip(Join(lines))) == Ink(lines) && !Blank(Strip(Join(lines))) && Strip(Join(lines)) != ""
  {
    SqueezeJoin(lines);
    NoBlankInk(lines);
    SqueezeBlank(Join(lines));
    SqueezeStrip(Join(lines));
    StripBlank(Join(lines));
  }

  function WithBlock(sections: seq<Section>, b: Block): seq<Section>
    requires sections != []
  {
    var n := |sections| - 1;
    sections[..n] + [Section(sections[n].stack, sections[n].blocks + [b])]
  }

  lemma SectionsInkMore(sections: seq<Section>, s: Section)
    ensures SectionsInk(sections + [s]) == SectionsInk(sections) + BlocksInk(s.blocks)
  {
    SectionsInkConcat(sections, [s]);
    SectionsInkOne(s);
  }

  lemma WithBlockInk(sections: seq<Section>, b: Block)
    requires sections != []
    ensures SectionInks(WithBlock(sections, b)) == Behind(SectionInks(sections), Squeeze(b.text))
  {
    BlocksInkMore(sections[|sections| - 1].blocks, b);
  }

  // A line that is not blank is kept without the spaces at its end.
  lemma InkMore(lines: seq<string>, line: string)
    requires NoBlankLines(lines) && !Blank(line)
    ensures NoBlankLines(lines + [StripRight(line)]) && Ink(lines + [StripRight(line)]) == Ink(lines) + Squeeze(line)
  {
    StripRightBlank(line);
    InkConcat(lines, [StripRight(line)]);
    InkOne(StripRight(line));
    SqueezeStripRight(line);
  }

  lemma NoTableLinesMore(lines: seq<string>, line: string)
    ensures NoTableLines(lines + [line]) <==> NoTableLines(lines) && !IsTableLine(line)
  {
    assert forall i :: 0 <= i < |lines| ==> (lines + [line])[i] == lines[i];
    assert (lines + [line])[|lines|] == line;
  }

  predicate IsTableLine(line: string) {
    "|" <= Strip(line)
  }

  ghost predicate NoTableLines(lines: seq<string>) {
    forall i :: 0 <= i < |lines| ==> !IsTableLine(lines[i])
  }

  ghost predicate OnlyParas(blocks: seq<Block>) {
    forall i :: 0 <= i < |blocks| ==> blocks[i].Para?
  }

  ghost predicate NoTables(sections: seq<Section>) {
    forall i :: 0 <= i < |sections| ==> OnlyParas(sections[i].blocks)
  }

  // _parse_sections and the variables its two flush functions share.
  class SectionParser {
    var title: Option<string>
    var sections: seq<Section>
    var preamble: seq<Block>
    var stack: seq<string>
    var paraLines: seq<string>
    var paraStart: nat
    var tableLines: seq<string>
    var tableStart: nat

    constructor ()
      ensures Valid() && Seen() == [""] && title.None? && sections == [] && stack == [] && Plain()
    {
      title, sections, preamble, stack := None, [], [], [];
      paraLines, paraStart, tableLines, tableStart := [], 0, [], 0;
      NothingSeen();
    }

    ghost predicate Valid()
      reads this
    {
      && NoBlank(preamble) && SectionsOk(sections)
      && NoBlankLines(paraLines) && NoBlankLines(tableLines) && (paraLines == [] || tableLines == [])
    }

    // No table has been met.
    ghost predicate Plain()
      reads this
    {
      tableLines == [] && OnlyParas(preamble) && NoTables(sections)
    }

    // The ink in front of the first heading and under each heading: as filed so far, and with the lines collected.
    ghost function Filed(): (inks: seq<string>)
      reads this
      ensures inks != []
    {
      FiledInks(preamble, sections)
    }

    ghost function Seen(): (inks: seq<string>)
      reads this
      ensures inks != []
    {
      SeenInks(preamble, sections, paraLines, tableLines)
    }

    method AddToLast(b: Block)
      requires Valid() && !Blank(b.text) && sections != []
      modifies this`sections
      ensures Valid() && sections == WithBlock(old(sections), b) && Stacks(sections) == old(Stacks(sections))
      ensures Filed() == Behind(old(Filed()), Squeeze(b.text))
      ensures old(Plain()) && b.Para? ==> Plain()
    {
      WithBlockFacts(preamble, sections, b);
      sections := WithBlock(sections, b);
    }

    method AddBlock(b: Block)
      requires Valid() && !Blank(b.text)
      modifies this`sections, this`preamble
      ensures Valid() && Filed() == Behind(old(Filed()), Squeeze(b.text)) && Stacks(sections) == old(Stacks(sections))
      ensures old(Plain()) && b.Para? ==> Plain()
    {
      if sections == [] {
        BlocksInkMore(preamble, b);
        preamble := preamble + [b];
      } else {
        AddToLast(b);
      }
    }

    method FlushPara()
      requires Valid()
      modifies this`sections, this`preamble, this`paraLines
      ensures Valid() && Seen() == old(Seen()) && paraLines == [] && Stacks(sections) == old(Stacks(sections))
      ensures old(Plain()) ==> Plain()
    {
      var text := if paraLines != [] then Strip(Join(paraLines)) else "";
      if paraLines != [] {
        JoinedLinesInk(paraLines);
      }
      if text != "" {
        SeenParas(preamble, sections, paraLines);
        AddBlock(Para(text, paraStart));
        SeenNoLines(preamble, sections);
      }
      paraLines := [];
    }

    method FlushTable()
      requires Valid()
      modifies this`sections, this`preamble, this`tableLines
      ensures Valid() && Seen() == old(Seen()) && tableLines == [] && Stacks(sections) == old(Stacks(sections))
      ensures old(Plain()) ==> Plain()
    {
      if tableLines != [] {
        JoinedLinesInk(tableLines);
        SeenTables(preamble, sections, tableLines);
        AddBlock(Table(Join(tableLines), tableStart));
        tableLines := [];
        SeenNoLines(preamble, sections);
      }
    }

    method OpenSection(h: Heading)
      requires Valid() && paraLines == [] && tableLines == [] && h.level >= 1
      modifies this`title, this`sections, this`stack
      ensures Valid() && Seen() == old(Seen()) + [""]
      ensures stack == Under(old(stack), h) && Stacks(sections) == old(Stacks(sections)) + [stack]
      ensures title == TitleAfter(old(title), Some(h))
      ensures paraLines == [] && tableLines == []
      ensures old(Plain()) ==> Plain()
    {
      NewSection(preamble, sections, Under(stack, h));
      stack := Under(stack, h);
      if h.level == 1 && title.None? {
        title := Some(h.text);
      }
      sections := sections + [Section(stack, [])];
    }

    // One line, and the heading it is if it splits.
    method Feed(line: string, h: Option<Heading>, idx: nat)
      requires Valid() && (h.Some? ==> h.value.level >= 1)
      modifies this
      ensures Valid() && Seen() == InksAfter(old(Seen()), line, h)
      ensures stack == PathAfter(old(stack), h)
      ensures Stacks(sections) == old(Stacks(sections)) + (if h.Some? then [stack] else [])
      ensures title == TitleAfter(old(title), h)
      ensures old(Plain()) && !IsTableLine(line) ==> Plain()
    {
      if h.Some? {
        FlushBoth();
        OpenSection(h.value);
      } else {
        FeedText(line, idx);
      }
    }

    // What the parser knows is what these lines say.
    ghost predicate Follows(lines: seq<string>, levels: set<nat>)
      reads this
    {
      && Valid() && Seen() == InksOf(lines, levels) && stack == PathAt(lines, levels)
      && Stacks(sections) == PathsOf(lines, levels) && title == TitleOf(lines, levels)
      && (NoTableLines(lines) ==> Plain())
    }

    lemma FollowsNothing(levels: set<nat>)
      requires Valid() && Seen() == [""] && title.None? && sections == [] && stack == [] && Plain()
      ensures Follows([], levels)
    {
    }

    method FeedNext(ghost lines: seq<string>, line: string, levels: set<nat>, idx: nat)
      requires Follows(lines, levels)
      modifies this
      ensures Follows(lines + [line], levels)
    {
      OneMoreLine(lines, line, levels);
      NoTableLinesMore(lines, line);
      Feed(line, SplitAt(line, levels), idx);
    }

    // After the last line nothing is left to collect.
    method Finish(ghost lines: seq<string>, ghost levels: set<nat>)
      requires Follows(lines, levels)
      modifies this`sections, this`preamble, this`paraLines, this`tableLines
      ensures Valid() && Filed() == InksOf(lines, levels) && Stacks(sections) == PathsOf(lines, levels)
      ensures title == TitleOf(lines, levels)
      ensures NoTableLines(lines) ==> Plain()
    {
      FlushBoth();
      SeenNoLines(preamble, sections);
    }

    method FeedText(line: string, idx: nat)
      requires Valid()
      modifies this`sections, this`preamble, this`paraLines, this`paraStart, this`tableLines, this`tableStart
      ensures Valid() && Seen() == Behind(old(Seen()), Squeeze(line)) && Stacks(sections) == old(Stacks(sections))
      ensures old(Plain()) && !IsTableLine(line) ==> Plain()
    {
      StripBlank(line);
      if IsTableLine(line) {
        FlushPara();
        TakeTableLine(line, idx);
      } else if Strip(line) == "" {
        SqueezeBlank(line);
        BehindNothing(Seen());
        FlushBoth();
      } else {
        FlushTable();
        TakeParaLine(line, idx);
      }
    }

    method FlushBoth()
      requires Valid()
      modifies this`sections, this`preamble, this`paraLines, this`tableLines
      ensures Valid() && Seen() == old(Seen()) && paraLines == [] && tableLines == []
      ensures Stacks(sections) == old(Stacks(sections))
      ensures old(Plain()) ==> Plain()
    {
      FlushPara();
      FlushTable();
    }

    method TakeTableLine(line: string, idx: nat)
      requires Valid() && paraLines == [] && !Blank(line)
      modifies this`tableLines, this`tableStart
      ensures Valid() && Seen() == Behind(old(Seen()), Squeeze(line))
    {
      if tableLines == [] {
        tableStart := idx;
      }
      Collected(Filed(), tableLines, line);
      SeenTables(preamble, sections, tableLines);
      SeenTables(preamble, sections, tableLines + [StripRight(line)]);
      tableLines := tableLines + [StripRight(line)];
    }

    method TakeParaLine(line: string, idx: nat)
      requires Valid() && tableLines == [] && !Blank(line)
      modifies this`paraLines, this`paraStart
      ensures Valid() && Seen() == Behind(old(Seen()), Squeeze(line))
      ensures old(Plain()) ==> Plain()
    {
      if paraLines == [] {
        paraStart := idx;
      }
      Collected(Filed(), paraLines, line);
      SeenParas(preamble, sections, paraLines);
      SeenParas(preamble, sections, paraLines + [StripRight(line)]);
      paraLines := paraLines + [StripRight(line)];
    }
  }

  lemma Collected(inks: seq<string>, lines: seq<string>, line: string)
    requires inks != [] && NoBlankLines(lines) && !Blank(line)
    ensures NoBlankLines(lines + [StripRight(line)])
    ensures Behind(inks, Ink(lines + [StripRight(line)])) == Behind(Behind(inks, Ink(lines)), Squeeze(line))
  {
    InkMore(lines, line);
    BehindTwice(inks, Ink(lines), Squeeze(line));
  }

  lemma NewSection(preamble: seq<Block>, sections: seq<Section>, stack: seq<string>)
    ensures var more := sections + [Section(stack, [])];
            && SeenInks(preamble, more, [], []) == SeenInks(preamble, sections, [], []) + [""]
            && Stacks(more) == Stacks(sections) + [stack]
            && (SectionsOk(sections) && stack != [] ==> SectionsOk(more))
            && (NoTables(sections) ==> NoTables(more))
  {
    assert BlockTexts([]) == [] && Squeezes([]) == [];
    SeenNoLines(preamble, sections);
    SeenNoLines(preamble, sections + [Section(stack, [])]);
    assert SectionInks(sections + [Section(stack, [])]) == SectionInks(sections) + [""];
  }

  ghost function FiledInks(preamble: seq<Block>, sections: seq<Section>): (inks: seq<string>)
    ensures inks != []
  {
    [BlocksInk(preamble)] + SectionInks(sections)
  }

  // Lines still collected belong to the last section.
  ghost function SeenInks(preamble: seq<Block>, sections: seq<Section>, paraLines: seq<string>,
                          tableLines: seq<string>): (inks: seq<string>)
    ensures inks != []
  {
    Behind(FiledInks(preamble, sections), Ink(paraLines) + Ink(tableLines))
  }

  lemma NothingSeen()
    ensures SeenInks([], [], [], []) == [""]
  {
    assert BlockTexts([]) == [] && Squeezes([]) == [];
    SeenNoLines([], []);
  }

  lemma SeenNoLines(preamble: seq<Block>, sections: seq<Section>)
    ensures SeenInks(preamble, sections, [], []) == FiledInks(preamble, sections)
  {
    assert Squeezes([]) == [] && "" + "" == "";
    BehindNothing(FiledInks(preamble, sections));
  }

  lemma SeenParas(preamble: seq<Block>, sections: seq<Section>, lines: seq<string>)
    ensures SeenInks(preamble, sections, lines, []) == Behind(FiledInks(preamble, sections), Ink(lines))
  {
    assert Squeezes([]) == [] && Ink(lines) + "" == Ink(lines);
  }

  lemma SeenTables(preamble: seq<Block>, sections: seq<Section>, lines: seq<string>)
    ensures SeenInks(preamble, sections, [], lines) == Behind(FiledInks(preamble, sections), Ink(lines))
  {
    assert Squeezes([]) == [] && "" + Ink(lines) == Ink(lines);
  }

  lemma WithBlockFacts(preamble: seq<Block>, sections: seq<Section>, b: Block)
    requires SectionsOk(sections) && sections != [] && !Blank(b.text)
    ensures var more := WithBlock(sections, b);
            && SectionsOk(more) && Stacks(more) == Stacks(sections)
            && FiledInks(preamble, more) == Behind(FiledInks(preamble, sections), Squeeze(b.text))
            && (NoTables(sections) && b.Para? ==> NoTables(more))
  {
    WithBlockInk(sections, b);
    BehindBehind(BlocksInk(preamble), SectionInks(sections), Squeeze(b.text));
  }

  lemma BehindBehind(front: string, inks: seq<string>, more: string)
    requires inks != []
    ensures [front] + Behind(inks, more) == Behind([front] + inks, more)
  {
  }

  // The first title heading of some lines.
  function TitleOf(lines: seq<string>, levels: set<nat>): Option<string> {
    if lines == [] then None
    else TitleAfter(TitleOf(lines[..|lines| - 1], levels), SplitAt(lines[|lines| - 1], levels))
  }

  function TitleAfter(title: Option<string>, h: Option<Heading>): Option<string> {
    if title.None? && h.Some? && h.value.level == 1 then Some(h.value.text) else title
  }

  ghost predicate SectionsOk(sections: seq<Section>) {
    forall i :: 0 <= i < |sections| ==> sections[i].stack != [] && NoBlank(sections[i].blocks)
  }

  // The sections of a body: each stands under its heading path and has the ink found under that heading, together with
  // the ink in front of the first heading if it is the first with text; with no such section that ink gets one of its
  // own. Put together they spell the body, split headings aside.
  method ParseSections(lines: seq<string>, levels: set<nat>) returns (r: Result<(string, seq<Section>)>)
    requires 1 in levels
    ensures r == Err(NoTitle) <==> TitleOf(lines, levels).None?
    ensures r.Err? ==> r.error == NoTitle
    ensures r.Ok? ==>
              && TitleOf(lines, levels) == Some(r.value.0) && SectionsOk(r.value.1)
              && Stacks(r.value.1) == PlacedPaths(lines, levels, r.value.0)
              && SectionInks(r.value.1) == PlacedInks(lines, levels)
              && SectionsInk(r.value.1) == BodyInk(lines, levels)
              && (NoTableLines(lines) ==> NoTables(r.value.1))
  {
    var p := ReadBody(lines, levels);
    if p.title.None? {
      return Err(NoTitle);
    }
    var sections := p.sections;
    NoBlankBlocks(p.preamble);
    if p.preamble != [] {
      sections := MergePreamble(p.title.value, p.preamble, sections);
    }
    PlacedSpell(lines, levels);
    return Ok((p.title.value, sections));
  }

  lemma PlacedSpell(lines: seq<string>, levels: set<nat>)
    ensures Concat(PlacedInks(lines, levels)) == BodyInk(lines, levels)
  {
    var inks := InksOf(lines, levels);
    InksSpell(lines, levels);
    WithFrontInk(inks[0], inks[1..]);
    assert inks == [inks[0]] + inks[1..];
    ConcatConcat([inks[0]], inks[1..]);
    ConcatOne(inks[0]);
  }

  method ReadBody(lines: seq<string>, levels: set<nat>) returns (p: SectionParser)
    requires 1 in levels
    ensures fresh(p) && p.Valid() && FiledInks(p.preamble, p.sections) == InksOf(lines, levels)
    ensures Stacks(p.sections) == PathsOf(lines, levels) && p.title == TitleOf(lines, levels)
    ensures NoTableLines(lines) ==> p.Plain()
  {
    p := new SectionParser();
    p.FollowsNothing(levels);
    FeedAll(p, lines, levels);
    p.Finish(lines, levels);
  }

  method FeedAll(p: SectionParser, lines: seq<string>, levels: set<nat>)
    requires 1 in levels && p.Follows([], levels)
    modifies p
    ensures p.Follows(lines, levels)
  {
    for i := 0 to |lines|
      invariant p.Follows(lines[..i], levels)
    {
      assert lines[..i + 1] == lines[..i] + [lines[i]];
      p.FeedNext(lines[..i], lines[i], levels, i + 1);
    }
    assert lines[..|lines|] == lines;
  }

  lemma OneMoreLine(lines: seq<string>, line: string, levels: set<nat>)
    ensures var h, more := SplitAt(line, levels), lines + [line];
            && InksOf(more, levels) == InksAfter(InksOf(lines, levels), line, h)
            && PathAt(more, levels) == PathAfter(PathAt(lines, levels), h)
            && PathsOf(more, levels) == PathsOf(lines, levels) + (if h.Some? then [PathAt(more, levels)] else [])
            && TitleOf(more, levels) == TitleAfter(TitleOf(lines, levels), h)
  {
    assert (lines + [line])[..|lines|] == lines;
  }

  // Blocks that are not blank have ink, if there are any.
  lemma NoBlankBlocks(blocks: seq<Block>)
    requires NoBlank(blocks)
    ensures BlocksInk(blocks) == "" <==> blocks == []
  {
    if blocks == [] {
      assert BlockTexts([]) == [] && Squeezes([]) == [];
    } else {
      var init, last := blocks[..|blocks| - 1], blocks[|blocks| - 1];
      assert blocks == init + [last];
      BlocksInkMore(init, last);
      SqueezeBlank(last.text);
    }
  }

  // The text in front of the first heading joins the first section that has text.
  method MergePreamble(title: string, preamble: seq<Block>, sections: seq<Section>) returns (merged: seq<Section>)
    requires SectionsOk(sections) && NoBlank(preamble) && preamble != []
    ensures SectionsOk(merged)
    ensures SectionInks(merged) == WithFront(BlocksInk(preamble), SectionInks(sections))
    ensures Stacks(merged) == PathsWithFront(BlocksInk(preamble), SectionInks(sections), Stacks(sections), title)
    ensures OnlyParas(preamble) && NoTables(sections) ==> NoTables(merged)
  {
    NoBlankBlocks(preamble);
    var i := 0;
    while i < |sections| && sections[i].blocks == []
      invariant 0 <= i <= |sections| && forall k :: 0 <= k < i ==> sections[k].blocks == []
    {
      i := i + 1;
    }
    IsFirstText(sections, i);
    if i < |sections| {
      JoinedSection(preamble, sections, i);
      return sections[i := Section(sections[i].stack, preamble + sections[i].blocks)];
    }
    OwnSection(preamble, title, sections);
    return [Section([title], preamble)] + sections;
  }

  lemma JoinedSection(preamble: seq<Block>, sections: seq<Section>, i: nat)
    requires SectionsOk(sections) && NoBlank(preamble) && i < |sections|
    ensures var merged := sections[i := Section(sections[i].stack, preamble + sections[i].blocks)];
            && SectionsOk(merged) && Stacks(merged) == Stacks(sections)
            && SectionInks(merged) == SectionInks(sections)[i := BlocksInk(preamble) + SectionInks(sections)[i]]
            && (OnlyParas(preamble) && NoTables(sections) ==> NoTables(merged))
  {
    BlocksInkConcat(preamble, sections[i].blocks);
  }

  lemma OwnSection(preamble: seq<Block>, title: string, sections: seq<Section>)
    requires SectionsOk(sections) && NoBlank(preamble)
    ensures var merged := [Section([title], preamble)] + sections;
            && SectionsOk(merged) && Stacks(merged) == [[title]] + Stacks(sections)
            && SectionInks(merged) == [BlocksInk(preamble)] + SectionInks(sections)
            && (OnlyParas(preamble) && NoTables(sections) ==> NoTables(merged))
  {
  }

  lemma IsFirstText(sections: seq<Section>, i: nat)
    requires SectionsOk(sections) && i <= |sections| && forall k :: 0 <= k < i ==> sections[k].blocks == []
    requires i < |sections| ==> sections[i].blocks != []
    ensures FirstText(SectionInks(sections)) == i
  {
    forall k | 0 <= k < |sections| ensures SectionInks(sections)[k] == "" <==> sections[k].blocks == [] {
      NoBlankBlocks(sections[k].blocks);
    }
  }

  // ---------------------------------------------------------------- the document

  function JoinPath(stack: seq<string>): string {
    if stack == [] then ""
    else if |stack| == 1 then stack[0]
    else JoinPath(stack[..|stack| - 1]) + " > " + stack[|stack| - 1]
  }

  // A path names its headings from the outside in.
  lemma {:induction false} JoinPathOfConcat(a: seq<string>, b: seq<string>)
    requires a != [] && b != []
    ensures JoinPath(a + b) == JoinPath(a) + " > " + JoinPath(b)
  {
    var n := |b| - 1;
    assert (a + b)[..|a + b| - 1] == a + b[..n];
    if n == 0 {
      assert a + b[..n] == a;
    } else {
      JoinPathOfConcat(a, b[..n]);
    }
  }

  function Answers(chunks: seq<Chunk>): (r: seq<Answer>)
    ensures |r| == |chunks| && forall i :: 0 <= i < |r| ==> r[i] == chunks[i].answer
  {
    seq(|chunks|, i requires 0 <= i < |chunks| => chunks[i].answer)
  }

  // In an FAQ, what stands directly under the title goes with the next question.
  predicate IsPrefix(t: DocType, s: Section) {
    t.Faq? && |s.stack| < 2
  }

  // Blocks waiting for a question after these sections.
  function Waiting(t: DocType, sections: seq<Section>): seq<Block> {
    if sections == [] then []
    else if IsPrefix(t, sections[|sections| - 1])
    then Waiting(t, sections[..|sections| - 1]) + sections[|sections| - 1].blocks
    else []
  }

  function AllBlocks(sections: seq<Section>): seq<Block> {
    if sections == [] then [] else AllBlocks(sections[..|sections| - 1]) + sections[|sections| - 1].blocks
  }

  lemma AllBlocksMore(sections: seq<Section>, s: Section)
    ensures AllBlocks(sections + [s]) == AllBlocks(sections) + s.blocks
  {
    assert (sections + [s])[..|sections|] == sections;
  }

  lemma TakenMore(taken: seq<Block>, pending: seq<Block>, sections: seq<Section>, s: Section)
    requires taken + pending == AllBlocks(sections)
    ensures taken + (pending + s.blocks) == AllBlocks(sections + [s])
  {
    AllBlocksMore(sections, s);
  }

  lemma {:induction false} AllBlocksPrefix(sections: seq<Section>, n: nat)
    requires n <= |sections|
    ensures AllBlocks(sections[..n]) <= AllBlocks(sections)
  {
    if n < |sections| {
      AllBlocksPrefix(sections[..|sections| - 1], n);
      assert sections[..|sections| - 1][..n] == sections[..n];
    } else {
      assert sections[..n] == sections;
    }
  }

  // With no error in front, the first error of some blocks is the first of all.
  lemma FirstErrorBehind(front: seq<Block>, blocks: seq<Block>, all: seq<Block>, maxChars: nat, error: ChunkError)
    requires NoErrors(front, maxChars) && IsFirstError(blocks, maxChars, error) && front + blocks <= all
    ensures IsFirstError(all, maxChars, error)
  {
    var i :| 0 <= i < |blocks| && NoErrors(blocks[..i], maxChars) && BlockError(blocks[i], maxChars) == Some(error);
    var k := |front| + i;
    assert all[k] == (front + blocks)[k];
    forall j | 0 <= j < k ensures BlockError(all[..k][j], maxChars).None? {
      assert all[j] == (front + blocks)[j];
      if j >= |front| {
        assert blocks[..i][j - |front|] == all[j];
      }
    }
  }

  lemma WaitingMore(t: DocType, sections: seq<Section>, s: Section)
    ensures Waiting(t, sections + [s]) == if IsPrefix(t, s) then Waiting(t, sections) + s.blocks else []
  {
    assert (sections + [s])[..|sections|] == sections;
  }

  lemma InkWithSection(spelled: string, pending: seq<Block>, sections: seq<Section>, s: Section)
    requires spelled + BlocksInk(pending) == SectionsInk(sections)
    ensures spelled + BlocksInk(pending + s.blocks) == SectionsInk(sections + [s])
  {
    BlocksInkConcat(pending, s.blocks);
    SectionsInkMore(sections, s);
  }

  lemma {:induction false} NothingWaiting(t: DocType, sections: seq<Section>)
    requires !t.Faq?
    ensures Waiting(t, sections) == []
  {
  }

  lemma {:induction false} NonBlankConcat(a: seq<Answer>, b: seq<Answer>)
    ensures NonBlank(a + b) == NonBlank(a) + NonBlank(b)
  {
    if b == [] {
      assert a + b == a;
    } else {
      var init := b[..|b| - 1];
      NonBlankConcat(a, init);
      assert (a + b)[..|a + b| - 1] == a + init;
    }
  }

  lemma SpelledConcat(a: seq<Answer>, cutsA: seq<nat>, b: seq<Answer>, cutsB: seq<nat>)
    requires |cutsA| == |a| && |cutsB| == |b|
    ensures Spelled(a + b, cutsA + cutsB) == Spelled(a, cutsA) + Spelled(b, cutsB)
  {
    assert Parts(a + b, cutsA + cutsB) == Parts(a, cutsA) + Parts(b, cutsB);
    InkConcat(Parts(a, cutsA), Parts(b, cutsB));
  }

  lemma CutsConcat(a: seq<Answer>, cutsA: seq<nat>, b: seq<Answer>, cutsB: seq<nat>, maxChars: nat, overlap: int)
    requires CutsOk(a, cutsA, maxChars, overlap) && CutsOk(b, cutsB, maxChars, overlap)
    ensures CutsOk(a + b, cutsA + cutsB, maxChars, overlap)
  {
    var all, cuts := a + b, cutsA + cutsB;
    forall i | 0 <= i < |all| ensures AnswerOk(all, cuts, i, maxChars, overlap) {
      if i < |a| {
        assert AnswerOk(a, cutsA, i, maxChars, overlap) && Before(all, i) == Before(a, i);
      } else {
        assert AnswerOk(b, cutsB, i - |a|, maxChars, overlap);
        assert i > |a| ==> Before(all, i) == Before(b, i - |a|);
      }
    }
  }

  lemma {:induction false} BlankLinesInk(lines: seq<string>)
    requires forall i :: 0 <= i < |lines| ==> Blank(lines[i])
    ensures Ink(lines) == ""
  {
    if lines == [] {
      assert Squeezes(lines) == [];
    } else {
      var n := |lines| - 1;
      BlankLinesInk(lines[..n]);
      assert lines == lines[..n] + [lines[n]];
      InkConcat(lines[..n], [lines[n]]);
      InkOne(lines[n]);
      SqueezeBlank(lines[n]);
    }
  }

  lemma {:induction false} NoneKept(answers: seq<Answer>)
    requires NonBlank(answers) == []
    ensures forall i :: 0 <= i < |answers| ==> Blank(answers[i].text)
  {
    if answers != [] {
      NoneKept(answers[..|answers| - 1]);
      StripBlank(answers[|answers| - 1].text);
    }
  }

  lemma AllBlankSpellNothing(answers: seq<Answer>, cuts: seq<nat>)
    requires |cuts| == |answers| && NonBlank(answers) == []
    ensures Spelled(answers, cuts) == ""
  {
    NoneKept(answers);
    BlankLinesInk(Parts(answers, cuts));
  }

  // What is kept from section to section: the chunks are those of the sections seen, stretch by stretch, and the blocks
  // waiting are those that wait after them.
  ghost predicate StateOk(t: DocType, maxChars: nat, overlap: int, title: string, chunks: seq<Chunk>,
                          pending: seq<Block>,
                          seen: seq<Section>, sts: seq<Stretch>) {
    && NoBlank(pending) && pending == Waiting(t, seen)
    && AreStretches(sts, t, title, seen, maxChars, overlap) && ChunksOf(sts) == chunks
  }

  // A section's text waits with what waits already.
  lemma Held(t: DocType, maxChars: nat, overlap: int, title: string, chunks: seq<Chunk>, pending: seq<Block>,
             seen: seq<Section>, sts: seq<Stretch>, s: Section)
    requires StateOk(t, maxChars, overlap, title, chunks, pending, seen, sts) && NoBlank(s.blocks) && IsPrefix(t, s)
    ensures StateOk(t, maxChars, overlap, title, chunks, pending + s.blocks, seen + [s], sts + [NO_STRETCH])
  {
    WaitingMore(t, seen, s);
    NothingTaken(sts, t, title, seen, s, maxChars, overlap);
  }

  // A section without text, with nothing waiting in front, makes no difference.
  lemma Skipped(t: DocType, maxChars: nat, overlap: int, title: string, chunks: seq<Chunk>, pending: seq<Block>,
                seen: seq<Section>, sts: seq<Stretch>, s: Section)
    requires StateOk(t, maxChars, overlap, title, chunks, pending, seen, sts)
    requires !IsPrefix(t, s) && pending + s.blocks == []
    ensures StateOk(t, maxChars, overlap, title, chunks, pending, seen + [s], sts + [NO_STRETCH])
  {
    WaitingMore(t, seen, s);
    NothingTaken(sts, t, title, seen, s, maxChars, overlap);
  }

  // A section's stretch takes what waits in front of it.
  lemma Taken(t: DocType, maxChars: nat, overlap: int, title: string, chunks: seq<Chunk>, pending: seq<Block>,
              seen: seq<Section>, sts: seq<Stretch>, s: Section, st: Stretch)
    requires StateOk(t, maxChars, overlap, title, chunks, pending, seen, sts)
    requires !IsPrefix(t, s) && NoErrors(pending + s.blocks, maxChars)
    requires StretchOk(st, t, title, s.stack, BlocksInk(pending + s.blocks), maxChars, overlap)
    ensures StateOk(t, maxChars, overlap, title, chunks + st.chunks, [], seen + [s], sts + [st])
  {
    WaitingMore(t, seen, s);
    assert (seen + [s])[..|seen|] == seen && (sts + [st])[..|sts|] == sts;
    OneMoreStretch(sts, t, title, seen, s, st, maxChars, overlap);
  }

  // The chunks of the document so far, all the answers behind them, and what is still waiting.
  class DocumentChunker {
    const t: DocType
    const maxChars: nat
    const overlap: int
    const title: string
    var chunks: seq<Chunk>
    var pendingPrefix: seq<Block>
    ghost var seen: seq<Section>
    ghost var stretches: seq<Stretch>

    constructor (t: DocType, maxChars: nat, overlap: int, title: string)
      requires 1 <= maxChars
      ensures this.t == t && this.maxChars == maxChars && this.overlap == overlap && this.title == title
      ensures Valid() && seen == []
    {
      this.t, this.maxChars, this.overlap, this.title := t, maxChars, overlap, title;
      chunks, pendingPrefix, seen, stretches := [], [], [], [];
    }

    ghost predicate Valid()
      reads this
    {
      1 <= maxChars && StateOk(t, maxChars, overlap, title, chunks, pendingPrefix, seen, stretches)
    }

    // The chunks of some answers, filed under the section's path.
    method File(s: Section, answers: seq<Answer>) returns (added: seq<Chunk>)
      requires s.stack != []
      ensures Answers(added) == answers && AllAt(added, t, title, s.stack)
    {
      var n := |s.stack| - 1;
      var category := if t.Faq? || n == 0 then title else JoinPath(s.stack[..n]);
      added := seq(|answers|, i requires 0 <= i < |answers| => Chunk(category, s.stack[n], answers[i], s.stack));
    }

    // The chunks of one section, or the error of the first of its blocks that cannot be cut.
    method EmitSection(s: Section, blocks: seq<Block>)
      returns (error: Option<ChunkError>, added: seq<Chunk>, ghost st: Stretch)
      requires 1 <= maxChars && NoBlank(blocks) && s.stack != []
      ensures error.Some? <==> !NoErrors(blocks, maxChars)
      ensures error.Some? ==> IsFirstError(blocks, maxChars, error.value)
      ensures error.None? ==>
                st.chunks == added && StretchOk(st, t, title, s.stack, BlocksInk(blocks), maxChars, overlap)
    {
      var answers;
      ghost var more, moreCuts;
      error, added, st := None, [], NO_STRETCH;
      answers, more, moreCuts := EmitAnswers(blocks, maxChars, overlap);
      if answers.Err? {
        error := Some(answers.error);
        return;
      }
      added := File(s, answers.value);
      st := Stretch(added, more, moreCuts);
    }

    method Hold(s: Section)
      requires Valid() && NoBlank(s.blocks) && IsPrefix(t, s)
      modifies this`pendingPrefix, this`seen, this`stretches
      ensures Valid() && seen == old(seen) + [s]
    {
      Held(t, maxChars, overlap, title, chunks, pendingPrefix, seen, stretches, s);
      pendingPrefix, seen, stretches := pendingPrefix + s.blocks, seen + [s], stretches + [NO_STRETCH];
    }

    method AddSection(s: Section) returns (error: Option<ChunkError>)
      requires Valid() && s.stack != [] && NoBlank(s.blocks)
      modifies this
      ensures error.None? ==> Valid() && seen == old(seen) + [s]
      ensures error.Some? ==> IsFirstError(AllBlocks(old(seen) + [s]), maxChars, error.value)
    {
      if IsPrefix(t, s) {
        Hold(s);
        return None;
      }
      error := AddQuestion(s);
    }

    method AddQuestion(s: Section) returns (error: Option<ChunkError>)
      requires Valid() && s.stack != [] && NoBlank(s.blocks) && !IsPrefix(t, s)
      modifies this
      ensures error.None? ==> Valid() && seen == old(seen) + [s]
      ensures error.Some? ==> IsFirstError(AllBlocks(old(seen) + [s]), maxChars, error.value)
    {
      if pendingPrefix + s.blocks == [] {
        Skip(s);
        return None;
      }
      error := Take(s);
    }

    method Skip(s: Section)
      requires Valid() && !IsPrefix(t, s) && pendingPrefix + s.blocks == []
      modifies this`seen, this`stretches
      ensures Valid() && seen == old(seen) + [s]
    {
      Skipped(t, maxChars, overlap, title, chunks, pendingPrefix, seen, stretches, s);
      seen, stretches := seen + [s], stretches + [NO_STRETCH];
    }

    // The section's chunks, with what waits in front of it.
    method Take(s: Section) returns (error: Option<ChunkError>)
      requires Valid() && s.stack != [] && NoBlank(s.blocks) && !IsPrefix(t, s)
      modifies this
      ensures error.None? ==> Valid() && seen == old(seen) + [s]
      ensures error.Some? ==> IsFirstError(AllBlocks(old(seen) + [s]), maxChars, error.value)
    {
      var blocks := pendingPrefix + s.blocks;
      var added;
      ghost var st;
      error, added, st := EmitSection(s, blocks);
      if error.Some? {
        ErrorInSection(stretches, t, title, seen, s, maxChars, overlap, error.value);
        return;
      }
      Keep(s, added, st);
    }

    method Keep(s: Section, added: seq<Chunk>, ghost st: Stretch)
      requires Valid() && !IsPrefix(t, s) && NoErrors(pendingPrefix + s.blocks, maxChars) && st.chunks == added
      requires StretchOk(st, t, title, s.stack, BlocksInk(pendingPrefix + s.blocks), maxChars, overlap)
      modifies this
      ensures Valid() && seen == old(seen) + [s]
    {
      Taken(t, maxChars, overlap, title, chunks, pendingPrefix, seen, stretches, s, st);
      chunks, pendingPrefix, seen, stretches := chunks + added, [], seen + [s], stretches + [st];
    }

    method AddSections(sections: seq<Section>) returns (error: Option<ChunkError>)
      requires Valid() && seen == [] && SectionsOk(sections)
      modifies this
      ensures error.None? ==> Valid() && seen == sections
      ensures error.Some? ==> IsFirstError(AllBlocks(sections), maxChars, error.value)
    {
      error := None;
      var i := 0;
      while i < |sections|
        invariant 0 <= i <= |sections| && error.None? && Valid() && seen == sections[..i]
      {
        OneMoreSection(sections, i);
        error := AddSection(sections[i]);
        if error.Some? {
          AllBlocksPrefix(sections, i + 1);
          FirstErrorBehind([], AllBlocks(sections[..i + 1]), AllBlocks(sections), maxChars, error.value);
          return;
        }
        i := i + 1;
      }
      OneMoreSection(sections, i);
    }
  }

  lemma OneMoreSection(sections: seq<Section>, i: nat)
    requires i <= |sections|
    ensures i < |sections| ==> sections[..i + 1] == sections[..i] + [sections[i]]
    ensures i == |sections| ==> sections[..i] == sections
  {
  }

  lemma NoErrorsConcat(a: seq<Block>, b: seq<Block>, maxChars: nat)
    requires NoErrors(a, maxChars) && NoErrors(b, maxChars)
    ensures NoErrors(a + b, maxChars)
  {
  }

  lemma NothingPending(spelled: string, ink: string)
    requires spelled == ink
    ensures spelled + BlocksInk([]) == ink
  {
    assert BlockTexts([]) == [] && Squeezes([]) == [];
  }

  // ---------------------------------------------------------------- which text stands under which path

  // What one section adds: its chunks, all its answers, and what each of them repeats.
  datatype Stretch = Stretch(chunks: seq<Chunk>, answers: seq<Answer>, cuts: seq<nat>)

  const NO_STRETCH := Stretch([], [], [])

  // A chunk is filed under its section's heading path: the last heading is its question, the ones above it its
  // category, or the title where there are none.
  predicate IsChunkAt(chunk: Chunk, t: DocType, title: string, path: seq<string>) {
    && path != [] && chunk.path == path && chunk.questions == path[|path| - 1]
    && chunk.category == if t.Faq? || |path| == 1 then title else JoinPath(path[..|path| - 1])
  }

  ghost predicate AllAt(chunks: seq<Chunk>, t: DocType, title: string, path: seq<string>) {
    forall i :: 0 <= i < |chunks| ==> IsChunkAt(chunks[i], t, title, path)
  }

  // All chunks stand under this path, and without what they repeat they say exactly this.
  ghost predicate StretchOk(st: Stretch, t: DocType, title: string, path: seq<string>, ink: string, maxChars: nat,
                            overlap: int) {
    && AllAt(st.chunks, t, title, path) && Answers(st.chunks) == NonBlank(st.answers)
    && CutsOk(st.answers, st.cuts, maxChars, overlap) && Spelled(st.answers, st.cuts) == ink
  }

  // What section k adds: its own blocks behind those that wait in front of it, or nothing if its own wait too.
  function TakenBlocks(t: DocType, sections: seq<Section>, k: nat): seq<Block>
    requires k < |sections|
  {
    if IsPrefix(t, sections[k]) then [] else Waiting(t, sections[..k]) + sections[k].blocks
  }

  function TakenInk(t: DocType, sections: seq<Section>, k: nat): string
    requires k < |sections|
  {
    BlocksInk(TakenBlocks(t, sections, k))
  }

  ghost predicate IsStretch(sts: seq<Stretch>, t: DocType, title: string, sections: seq<Section>, k: nat, maxChars: nat,
                            overlap: int)
    requires k < |sts| == |sections|
  {
    && StretchOk(sts[k], t, title, sections[k].stack, TakenInk(t, sections, k), maxChars, overlap)
    && NoErrors(TakenBlocks(t, sections, k), maxChars)
  }

  ghost predicate AreStretches(sts: seq<Stretch>, t: DocType, title: string, sections: seq<Section>, maxChars: nat,
                               overlap: int) {
    |sts| == |sections| && forall k :: 0 <= k < |sts| ==> IsStretch(sts, t, title, sections, k, maxChars, overlap)
  }

  function ChunksOf(sts: seq<Stretch>): seq<Chunk> {
    if sts == [] then [] else ChunksOf(sts[..|sts| - 1]) + sts[|sts| - 1].chunks
  }

  function AnswersOf(sts: seq<Stretch>): seq<Answer> {
    if sts == [] then [] else AnswersOf(sts[..|sts| - 1]) + sts[|sts| - 1].answers
  }

  function CutsOf(sts: seq<Stretch>): seq<nat> {
    if sts == [] then [] else CutsOf(sts[..|sts| - 1]) + sts[|sts| - 1].cuts
  }

  // The stretches, one behind the other, are the document.
  ghost predicate Makes(sts: seq<Stretch>, chunks: seq<Chunk>, all: seq<Answer>, cuts: seq<nat>) {
    ChunksOf(sts) == chunks && AnswersOf(sts) == all && CutsOf(sts) == cuts
  }

  lemma AnswersConcat(a: seq<Chunk>, b: seq<Chunk>)
    ensures Answers(a + b) == Answers(a) + Answers(b)
  {
  }

  lemma OneMoreStretch(sts: seq<Stretch>, t: DocType, title: string, sections: seq<Section>, s: Section, st: Stretch,
                       maxChars: nat, overlap: int)
    requires AreStretches(sts, t, title, sections, maxChars, overlap)
    requires StretchOk(st, t, title, s.stack, TakenInk(t, sections + [s], |sections|), maxChars, overlap)
    requires NoErrors(TakenBlocks(t, sections + [s], |sections|), maxChars)
    ensures AreStretches(sts + [st], t, title, sections + [s], maxChars, overlap)
  {
    var all, more := sections + [s], sts + [st];
    forall k | 0 <= k < |more| ensures IsStretch(more, t, title, all, k, maxChars, overlap) {
      if k < |sts| {
        assert IsStretch(sts, t, title, sections, k, maxChars, overlap);
        assert all[..k] == sections[..k] && all[k] == sections[k] && more[k] == sts[k];
      }
    }
  }

  // A section that waits, or has no text of its own and none waiting in front, adds nothing.
  lemma NothingTaken(sts: seq<Stretch>, t: DocType, title: string, sections: seq<Section>, s: Section, maxChars: nat,
                     overlap: int)
    requires AreStretches(sts, t, title, sections, maxChars, overlap)
    requires IsPrefix(t, s) || Waiting(t, sections) + s.blocks == []
    ensures AreStretches(sts + [NO_STRETCH], t, title, sections + [s], maxChars, overlap)
    ensures ChunksOf(sts + [NO_STRETCH]) == ChunksOf(sts)
  {
    assert (sections + [s])[..|sections|] == sections && (sts + [NO_STRETCH])[..|sts|] == sts;
    assert BlockTexts([]) == [] && Squeezes([]) == [] && Parts([], []) == [];
    OneMoreStretch(sts, t, title, sections, s, NO_STRETCH, maxChars, overlap);
    assert ChunksOf(sts) + [] == ChunksOf(sts);
  }

  // All answers are cut as they should be, the chunks are those that say something, and with what still waits they
  // spell the sections.
  ghost predicate Spells(t: DocType, sections: seq<Section>, chunks: seq<Chunk>, all: seq<Answer>, cuts: seq<nat>,
                         maxChars: nat, overlap: int) {
    && CutsOk(all, cuts, maxChars, overlap) && Answers(chunks) == NonBlank(all)
    && Spelled(all, cuts) + BlocksInk(Waiting(t, sections)) == SectionsInk(sections)
  }

  lemma SpellsMore(t: DocType, title: string, sections: seq<Section>, s: Section, chunks: seq<Chunk>, all: seq<Answer>,
                   cuts: seq<nat>, st: Stretch, maxChars: nat, overlap: int)
    requires Spells(t, sections, chunks, all, cuts, maxChars, overlap)
    requires StretchOk(st, t, title, s.stack, TakenInk(t, sections + [s], |sections|), maxChars, overlap)
    ensures Spells(t, sections + [s], chunks + st.chunks, all + st.answers, cuts + st.cuts, maxChars, overlap)
  {
    NonBlankConcat(all, st.answers);
    SpelledConcat(all, cuts, st.answers, st.cuts);
    CutsConcat(all, cuts, st.answers, st.cuts, maxChars, overlap);
    AnswersConcat(chunks, st.chunks);
    assert (sections + [s])[..|sections|] == sections;
    NoInkInNothing();
    StretchSpells(t, sections, s, Spelled(all, cuts), Spelled(st.answers, st.cuts));
  }

  // So the stretches together do.
  lemma {:induction false} StretchesSpell(sts: seq<Stretch>, t: DocType, title: string, sections: seq<Section>,
                                          maxChars: nat, overlap: int)
    requires AreStretches(sts, t, title, sections, maxChars, overlap)
    ensures Spells(t, sections, ChunksOf(sts), AnswersOf(sts), CutsOf(sts), maxChars, overlap)
  {
    if sts == [] {
      assert Parts([], []) == [] && Squeezes([]) == [] && BlockTexts([]) == [] && SectionInks([]) == [];
    } else {
      var n := |sts| - 1;
      FewerStretches(sts, t, title, sections, maxChars, overlap);
      StretchesSpell(sts[..n], t, title, sections[..n], maxChars, overlap);
      assert IsStretch(sts, t, title, sections, n, maxChars, overlap);
      assert sections == sections[..n] + [sections[n]];
      SpellsMore(t, title, sections[..n], sections[n], ChunksOf(sts[..n]), AnswersOf(sts[..n]),
          CutsOf(sts[..n]), sts[n],
                 maxChars, overlap);
    }
  }

  lemma NoInkInNothing()
    ensures BlocksInk([]) == ""
  {
    assert BlockTexts([]) == [] && Squeezes([]) == [];
  }

  lemma FewerStretches(sts: seq<Stretch>, t: DocType, title: string, sections: seq<Section>, maxChars: nat,
                       overlap: int)
    requires AreStretches(sts, t, title, sections, maxChars, overlap) && sts != []
    ensures AreStretches(sts[..|sts| - 1], t, title, sections[..|sts| - 1], maxChars, overlap)
  {
    var n := |sts| - 1;
    forall k | 0 <= k < n ensures IsStretch(sts[..n], t, title, sections[..n], k, maxChars, overlap) {
      SameStretch(sts, t, title, sections, n, k, maxChars, overlap);
    }
  }

  lemma StretchSpells(t: DocType, sections: seq<Section>, s: Section, before: string, more: string)
    requires before + BlocksInk(Waiting(t, sections)) == SectionsInk(sections)
    requires more == if IsPrefix(t, s) then "" else BlocksInk(Waiting(t, sections) + s.blocks)
    ensures (before + more) + BlocksInk(Waiting(t, sections + [s])) == SectionsInk(sections + [s])
  {
    InkWithSection(before, Waiting(t, sections), sections, s);
    WaitingMore(t, sections, s);
    if IsPrefix(t, s) {
      assert before + "" == before;
    } else {
      NothingPending(before + more, SectionsInk(sections + [s]));
    }
  }

  lemma SameStretch(sts: seq<Stretch>, t: DocType, title: string, sections: seq<Section>, n: nat, k: nat, maxChars: nat,
                    overlap: int)
    requires k < n <= |sts| == |sections| && IsStretch(sts, t, title, sections, k, maxChars, overlap)
    ensures IsStretch(sts[..n], t, title, sections[..n], k, maxChars, overlap)
  {
    assert sections[..n][..k] == sections[..k] && sections[..n][k] == sections[k] && sts[..n][k] == sts[k];
    assert TakenBlocks(t, sections[..n], k) == TakenBlocks(t, sections, k);
  }

  // Every block but those still waiting was taken by some section, in order, without error.
  lemma {:induction false} TakenInOrder(sts: seq<Stretch>, t: DocType, title: string, sections: seq<Section>,
                                        maxChars: nat, overlap: int) returns (taken: seq<Block>)
    requires AreStretches(sts, t, title, sections, maxChars, overlap)
    ensures taken + Waiting(t, sections) == AllBlocks(sections) && NoErrors(taken, maxChars)
  {
    taken := [];
    if sts != [] {
      var n := |sts| - 1;
      FewerStretches(sts, t, title, sections, maxChars, overlap);
      taken := TakenInOrder(sts[..n], t, title, sections[..n], maxChars, overlap);
      assert sections == sections[..n] + [sections[n]];
      TakenMore(taken, Waiting(t, sections[..n]), sections[..n], sections[n]);
      WaitingMore(t, sections[..n], sections[n]);
      assert IsStretch(sts, t, title, sections, n, maxChars, overlap);
      NoErrorsConcat(taken, TakenBlocks(t, sections, n), maxChars);
      var more := taken + TakenBlocks(t, sections, n);
      assert more + Waiting(t, sections) == AllBlocks(sections);
      taken := more;
    }
  }

  // The first error of a section is the first of the document so far.
  lemma ErrorInSection(sts: seq<Stretch>, t: DocType, title: string, sections: seq<Section>, s: Section, maxChars: nat,
                       overlap: int, error: ChunkError)
    requires AreStretches(sts, t, title, sections, maxChars, overlap)
    requires IsFirstError(Waiting(t, sections) + s.blocks, maxChars, error)
    ensures IsFirstError(AllBlocks(sections + [s]), maxChars, error)
  {
    var taken := TakenInOrder(sts, t, title, sections, maxChars, overlap);
    TakenMore(taken, Waiting(t, sections), sections, s);
    FirstErrorBehind(taken, Waiting(t, sections) + s.blocks, AllBlocks(sections + [s]), maxChars, error);
  }

  // ---------------------------------------------------------------- what an FAQ loses

  // The text that stands under a path shorter than two headings since the last line that did not.
  function Standing(lines: seq<string>, levels: set<nat>): string {
    if lines == [] || |PathAt(lines, levels)| >= 2 then ""
    else Standing(lines[..|lines| - 1], levels) + LineInk(lines[|lines| - 1], levels)
  }

  // The ink at the end that stands under such paths.
  function TailInk(paths: seq<seq<string>>, inks: seq<string>): string
    requires |paths| == |inks|
  {
    if paths == [] || |paths[|paths| - 1]| >= 2 then ""
    else TailInk(paths[..|paths| - 1], inks[..|inks| - 1]) + inks[|inks| - 1]
  }

  ghost predicate InTail(paths: seq<seq<string>>, k: int) {
    forall j :: 0 <= k <= j < |paths| ==> |paths[j]| < 2
  }

  ghost predicate NothingInTail(paths: seq<seq<string>>, inks: seq<string>)
    requires |paths| == |inks|
  {
    forall k :: 0 <= k < |inks| && InTail(paths, k) ==> inks[k] == ""
  }

  lemma {:induction false} TailInkIsEmptyIff(paths: seq<seq<string>>, inks: seq<string>)
    requires |paths| == |inks|
    ensures TailInk(paths, inks) == "" <==> NothingInTail(paths, inks)
  {
    if paths != [] {
      var n := |paths| - 1;
      if |paths[n]| < 2 {
        TailInkIsEmptyIff(paths[..n], inks[..n]);
        forall k | 0 <= k < n ensures InTail(paths, k) <==> InTail(paths[..n], k) {
          ShorterTail(paths, k);
        }
        assert InTail(paths, n);
        assert forall k :: 0 <= k < n ==> inks[..n][k] == inks[k];
      } else {
        assert forall k :: 0 <= k <= n ==> !InTail(paths, k);
      }
    }
  }

  lemma ShorterTail(paths: seq<seq<string>>, k: nat)
    requires k < |paths| - 1 && |paths[|paths| - 1]| < 2
    ensures InTail(paths, k) <==> InTail(paths[..|paths| - 1], k)
  {
    var n := |paths| - 1;
    if InTail(paths[..n], k) {
      forall j | k <= j < |paths| ensures |paths[j]| < 2 {
        assert j < n ==> paths[..n][j] == paths[j];
      }
    }
    if InTail(paths, k) {
      forall j | k <= j < n ensures |paths[..n][j]| < 2 {
        assert paths[..n][j] == paths[j];
      }
    }
  }

  // Line by line or section by section, it is the same text; what is in front of the first heading has no path.
  ghost predicate IsTail(standing: string, path: seq<string>, paths: seq<seq<string>>, inks: seq<string>) {
    && |inks| == |paths| + 1 && path == ([[]] + paths)[|paths|]
    && standing == TailInk([[]] + paths, inks)
  }

  lemma {:induction false} StandingIsTail(lines: seq<string>, levels: set<nat>)
    ensures IsTail(Standing(lines, levels), PathAt(lines, levels), PathsOf(lines, levels), InksOf(lines, levels))
  {
    if lines == [] {
      OneInTail("");
    } else {
      var init, line := lines[..|lines| - 1], lines[|lines| - 1];
      StandingIsTail(init, levels);
      if SplitAt(line, levels).Some? {
        TailAfterHeading(Standing(init, levels), PathAt(init, levels), PathsOf(init, levels), InksOf(init, levels),
                         PathAt(lines, levels));
      } else {
        TailBehind(Standing(init, levels), PathAt(init, levels), PathsOf(init, levels), InksOf(init, levels),
                   Squeeze(line));
        assert PathsOf(lines, levels) == PathsOf(init, levels);
      }
    }
  }

  lemma OneInTail(ink: string)
    ensures TailInk([[]], [ink]) == ink
  {
    assert [ink][..0] == [] && TailInk([], []) == "";
    assert TailInk([[]][..0], [ink][..0]) == "";
  }

  lemma TailAfterHeading(standing: string, path: seq<string>, paths: seq<seq<string>>, inks: seq<string>,
                         next: seq<string>)
    requires IsTail(standing, path, paths, inks)
    ensures IsTail(if |next| >= 2 then "" else standing + "", next, paths + [next], inks + [""])
  {
    var all := [[]] + paths;
    assert [[]] + (paths + [next]) == all + [next];
    assert (all + [next])[..|all|] == all && (inks + [""])[..|inks|] == inks;
  }

  lemma TailBehind(standing: string, path: seq<string>, paths: seq<seq<string>>, inks: seq<string>, more: string)
    requires IsTail(standing, path, paths, inks)
    ensures IsTail(if |path| >= 2 then "" else standing + more, path, paths, Behind(inks, more))
  {
    var n := |inks| - 1;
    assert Behind(inks, more)[..n] == inks[..n];
    var before := TailInk(([[]] + paths)[..n], inks[..n]);
    assert (before + inks[n]) + more == before + (inks[n] + more);
  }

  // What the blocks still waiting after some sections say.
  lemma {:induction false} WaitingIsTail(sections: seq<Section>)
    ensures BlocksInk(Waiting(Faq, sections)) == TailInk(Stacks(sections), SectionInks(sections))
  {
    if sections == [] {
      assert BlockTexts([]) == [] && Squeezes([]) == [];
    } else {
      var init, last := sections[..|sections| - 1], sections[|sections| - 1];
      WaitingIsTail(init);
      assert Stacks(sections)[..|init|] == Stacks(init) && SectionInks(sections)[..|init|] == SectionInks(init);
      BlocksInkConcat(Waiting(Faq, init), last.blocks);
      assert BlockTexts([]) == [] && Squeezes([]) == [];
    }
  }

  // The ink a document loses: in an FAQ, that of the last sections if no question follows them.
  function LostInk(t: DocType, lines: seq<string>): string {
    if t.Faq? && TitleOf(lines, SplitLevels(t)).Some? then
      PlacedFacts(lines, SplitLevels(t), TitleOf(lines, SplitLevels(t)).value);
      TailInk(PlacedPaths(lines, SplitLevels(t), TitleOf(lines, SplitLevels(t)).value),
          PlacedInks(lines, SplitLevels(t)))
    else ""
  }

  lemma PlacedFacts(lines: seq<string>, levels: set<nat>, title: string)
    ensures |PlacedPaths(lines, levels, title)| == |PlacedInks(lines, levels)|
  {
    InksSpell(lines, levels);
  }

  // Where the front text goes makes no difference to whether something is lost: it joins text that is lost itself.
  lemma FrontInTail(front: string, paths: seq<seq<string>>, inks: seq<string>, title: string)
    requires |paths| == |inks|
    ensures |PathsWithFront(front, inks, paths, title)| == |WithFront(front, inks)|
    ensures NothingInTail(PathsWithFront(front, inks, paths, title), WithFront(front, inks))
            <==> NothingInTail([[]] + paths, [front] + inks)
  {
    var i := FirstText(inks);
    assert forall k :: 0 <= k < |inks| ==> ([front] + inks)[k + 1] == inks[k];
    if front == "" || i < |inks| {
      forall k | 0 <= k < |inks| ensures InTail([[]] + paths, k + 1) <==> InTail(paths, k) {
        BehindFront([], paths, k);
      }
    } else {
      SameTails([title], [], paths);
    }
    if front != "" && i < |inks| {
      FrontJoins(front, paths, inks);
    }
  }

  lemma BehindFront(front: seq<string>, paths: seq<seq<string>>, k: nat)
    ensures InTail([front] + paths, k + 1) <==> InTail(paths, k)
  {
    assert forall j :: 0 <= j < |paths| ==> ([front] + paths)[j + 1] == paths[j];
    if InTail(paths, k) {
      forall j | k + 1 <= j < |paths| + 1 ensures |([front] + paths)[j]| < 2 {
        assert ([front] + paths)[j] == paths[j - 1];
      }
    }
  }

  lemma SameTails(a: seq<string>, b: seq<string>, paths: seq<seq<string>>)
    requires |a| < 2 && |b| < 2
    ensures forall k :: InTail([a] + paths, k) <==> InTail([b] + paths, k)
  {
    assert forall j :: 0 <= j <= |paths| ==> (|([a] + paths)[j]| < 2 <==> |([b] + paths)[j]| < 2);
  }

  lemma TailGrows(paths: seq<seq<string>>, k: nat, l: nat)
    ensures k <= l && InTail(paths, k) ==> InTail(paths, l)
  {
  }

  lemma FrontJoins(front: string, paths: seq<seq<string>>, inks: seq<string>)
    requires |paths| == |inks| && front != "" && FirstText(inks) < |inks|
    ensures NothingInTail(paths, WithFront(front, inks)) <==> NothingInTail([[]] + paths, [front] + inks)
  {
    if InTail(paths, FirstText(inks)) {
      FrontLost(front, paths, inks, FirstText(inks));
    } else {
      FrontKept(front, paths, inks, FirstText(inks));
    }
  }

  lemma FrontLost(front: string, paths: seq<seq<string>>, inks: seq<string>, i: nat)
    requires |paths| == |inks| && i < |inks| && inks[i] != "" && InTail(paths, i)
    ensures !NothingInTail(paths, inks[i := front + inks[i]]) && !NothingInTail([[]] + paths, [front] + inks)
  {
    BehindFront([], paths, i);
    assert inks[i := front + inks[i]][i] != "" && ([front] + inks)[i + 1] != "";
  }

  lemma FrontKept(front: string, paths: seq<seq<string>>, inks: seq<string>, i: nat)
    requires |paths| == |inks| && i < |inks| && !InTail(paths, i)
    ensures NothingInTail(paths, inks[i := front + inks[i]]) <==> NothingInTail([[]] + paths, [front] + inks)
  {
    var placed, all, behind := inks[i := front + inks[i]], [[]] + paths, [front] + inks;
    if NothingInTail(paths, placed) {
      forall k | 0 <= k < |behind| && InTail(all, k) ensures behind[k] == "" {
        SameInk(front, paths, inks, i, k);
      }
    }
    if NothingInTail(all, behind) {
      forall k | 0 <= k < |placed| && InTail(paths, k) ensures placed[k] == "" {
        BehindFront([], paths, k);
        SameInk(front, paths, inks, i, k + 1);
      }
    }
  }

  lemma SameInk(front: string, paths: seq<seq<string>>, inks: seq<string>, i: nat, k: nat)
    requires |paths| == |inks| && i < |inks| && !InTail(paths, i)
    requires k <= |inks| && InTail([[]] + paths, k)
    ensures k > 0 && InTail(paths, k - 1) && ([front] + inks)[k] == inks[i := front + inks[i]][k - 1]
  {
    BehindFront([], paths, i);
    TailGrows([[]] + paths, k, i + 1);
    BehindFront([], paths, k - 1);
  }

  // Exactly when a document loses text: it is an FAQ with text under its title, or another top-level heading, and no
  // question after it.
  lemma LosesIff(t: DocType, lines: seq<string>)
    requires TitleOf(lines, SplitLevels(t)).Some?
    ensures LostInk(t, lines) == "" <==> !t.Faq? || Standing(lines, SplitLevels(t)) == ""
  {
    if t.Faq? {
      var levels := SplitLevels(t);
      var inks, paths, title := InksOf(lines, levels), PathsOf(lines, levels), TitleOf(lines, levels).value;
      StandingIsTail(lines, levels);
      assert inks == [inks[0]] + inks[1..];
      TailInkIsEmptyIff([[]] + paths, inks);
      FrontInTail(inks[0], paths, inks[1..], title);
      TailInkIsEmptyIff(PlacedPaths(lines, levels, title), PlacedInks(lines, levels));
    }
  }

  lemma {:induction false} NoTablesNoErrors(sections: seq<Section>, maxChars: nat)
    requires NoTables(sections)
    ensures NoErrors(AllBlocks(sections), maxChars)
  {
    if sections != [] {
      NoTablesNoErrors(sections[..|sections| - 1], maxChars);
    }
  }

  lemma NoTablesNoFirstError(sections: seq<Section>, maxChars: nat)
    requires NoTables(sections)
    ensures forall error :: !IsFirstError(AllBlocks(sections), maxChars, error)
  {
    NoTablesNoErrors(sections, maxChars);
    forall error ensures !IsFirstError(AllBlocks(sections), maxChars, error) {
      NoFirstError(AllBlocks(sections), maxChars, error);
    }
  }

  lemma NoFirstError(blocks: seq<Block>, maxChars: nat, error: ChunkError)
    requires NoErrors(blocks, maxChars)
    ensures !IsFirstError(blocks, maxChars, error)
  {
  }

  // What the chunks of section k say, read off the lines: the text under its heading, in an FAQ behind what waited in
  // front of it; and nothing where the text waits itself.
  function SharedInk(t: DocType, paths: seq<seq<string>>, inks: seq<string>, k: nat): string
    requires k < |paths| == |inks|
  {
    if !t.Faq? then inks[k]
    else if |paths[k]| < 2 then ""
    else TailInk(paths[..k], inks[..k]) + inks[k]
  }

  // One stretch of chunks for each section, in order, all filed under its path and saying exactly its share.
  ghost predicate AreFiled(sts: seq<Stretch>, t: DocType, lines: seq<string>, maxChars: nat, overlap: int) {
    && TitleOf(lines, SplitLevels(t)).Some?
    && var title := TitleOf(lines, SplitLevels(t)).value;
       var paths, inks := PlacedPaths(lines, SplitLevels(t), title), PlacedInks(lines, SplitLevels(t));
       && |sts| == |paths| == |inks|
       && forall k :: 0 <= k < |sts| ==>
            StretchOk(sts[k], t, title, paths[k], SharedInk(t, paths, inks, k), maxChars, overlap)
  }

  lemma StretchesAreFiled(sts: seq<Stretch>, t: DocType, lines: seq<string>, sections: seq<Section>, maxChars: nat,
                          overlap: int)
    requires ArePlaced(sections, lines, SplitLevels(t))
    requires AreStretches(sts, t, TitleOf(lines, SplitLevels(t)).value, sections, maxChars, overlap)
    ensures AreFiled(sts, t, lines, maxChars, overlap)
  {
    var title := TitleOf(lines, SplitLevels(t)).value;
    var paths, inks := PlacedPaths(lines, SplitLevels(t), title), PlacedInks(lines, SplitLevels(t));
    forall k | 0 <= k < |sts|
      ensures StretchOk(sts[k], t, title, paths[k], SharedInk(t, paths, inks, k), maxChars, overlap)
    {
      assert IsStretch(sts, t, title, sections, k, maxChars, overlap);
      TakenIsShared(t, sections, k);
    }
  }

  lemma TakenIsShared(t: DocType, sections: seq<Section>, k: nat)
    requires k < |sections|
    ensures TakenInk(t, sections, k) == SharedInk(t, Stacks(sections), SectionInks(sections), k)
  {
    BlocksInkConcat(Waiting(t, sections[..k]), sections[k].blocks);
    if t.Faq? {
      WaitingIsTail(sections[..k]);
      assert Stacks(sections[..k]) == Stacks(sections)[..k] && SectionInks(sections[..k]) == SectionInks(sections)[..k];
    } else {
      NothingWaitingText(t, sections[..k]);
      assert "" + BlocksInk(sections[k].blocks) == BlocksInk(sections[k].blocks);
    }
  }

  // A whole document. Policies and manuals lose nothing: the answers, without what they repeat, spell the body without
  // its split headings. An FAQ loses exactly the text that waits for a question after its last sections, which is
  // nothing exactly when no text stands under its title, or another top-level heading, behind the last question.
  method ChunkDocument(t: DocType, body: string, maxChars: nat, overlap: int)
    returns (r: Result<seq<Chunk>>, ghost sections: seq<Section>, ghost all: seq<Answer>, ghost cuts: seq<nat>,
             ghost stretches: seq<Stretch>)
    requires 1 <= maxChars
    ensures r == Err(NoTitle) <==> TitleOf(SplitLines(body), SplitLevels(t)).None?
    ensures r != Err(NoTitle) ==> ArePlaced(sections, SplitLines(body), SplitLevels(t))
    ensures r.Ok? ==>
              && Makes(stretches, r.value, all, cuts) && AreFiled(stretches, t, SplitLines(body), maxChars, overlap)
              && r.value != [] && Answers(r.value) == NonBlank(all) && CutsOk(all, cuts, maxChars, overlap)
              && Spelled(all, cuts) + LostInk(t, SplitLines(body)) == BodyInk(SplitLines(body), SplitLevels(t))
              && (Spelled(all, cuts) == BodyInk(SplitLines(body), SplitLevels(t))
                  <==> !t.Faq? || Standing(SplitLines(body), SplitLevels(t)) == "")
    ensures r == Err(NoBody) ==> BodyInk(SplitLines(body), SplitLevels(t)) == LostInk(t, SplitLines(body))
    ensures NoTableLines(SplitLines(body)) ==> r.Ok? || r.error == NoTitle || r.error == NoBody
    ensures r.Err? && r.error != NoTitle && r.error != NoBody ==> IsFirstError(AllBlocks(sections), maxChars, r.error)
    ensures r.Ok? || r.error == NoBody ==> NoErrorsTaken(t, sections, maxChars)
  {
    r, sections, all, cuts, stretches := ChunkLines(t, SplitLines(body), maxChars, overlap);
    if r.Ok? {
      StretchesAreFiled(stretches, t, SplitLines(body), sections, maxChars, overlap);
      LostFacts(t, SplitLines(body), sections, Spelled(all, cuts));
    } else if r.error == NoBody {
      LostIsWaiting(t, SplitLines(body), sections);
    }
  }

  // Parsing and chunking; what waits is still told by the sections.
  method ChunkLines(t: DocType, lines: seq<string>, maxChars: nat, overlap: int)
    returns (r: Result<seq<Chunk>>, ghost sections: seq<Section>, ghost all: seq<Answer>, ghost cuts: seq<nat>,
             ghost stretches: seq<Stretch>)
    requires 1 <= maxChars
    ensures r == Err(NoTitle) <==> TitleOf(lines, SplitLevels(t)).None?
    ensures r != Err(NoTitle) ==> ArePlaced(sections, lines, SplitLevels(t))
                                  && SectionsInk(sections) == BodyInk(lines, SplitLevels(t))
    ensures r.Ok? ==>
              && Makes(stretches, r.value, all, cuts)
              && AreStretches(stretches, t, TitleOf(lines, SplitLevels(t)).value, sections, maxChars, overlap)
              && r.value != [] && Answers(r.value) == NonBlank(all) && CutsOk(all, cuts, maxChars, overlap)
              && Spelled(all, cuts) + BlocksInk(Waiting(t, sections)) == BodyInk(lines, SplitLevels(t))
    ensures r == Err(NoBody) ==> SectionsInk(sections) == BlocksInk(Waiting(t, sections))
    ensures NoTableLines(lines) ==> r.Ok? || r.error == NoTitle || r.error == NoBody
    ensures r.Err? && r.error != NoTitle && r.error != NoBody ==> IsFirstError(AllBlocks(sections), maxChars, r.error)
    ensures r.Ok? || r.error == NoBody ==> NoErrorsTaken(t, sections, maxChars)
  {
    sections, all, cuts, stretches := [], [], [], [];
    var parsed := ParseSections(lines, SplitLevels(t));
    if parsed.Err? {
      return Err(parsed.error), sections, all, cuts, stretches;
    }
    sections := parsed.value.1;
    r, all, cuts, stretches := ChunkSections(t, parsed.value.0, parsed.value.1, maxChars, overlap);
    if NoTables(sections) {
      NoTablesNoFirstError(sections, maxChars);
    }
  }

  lemma LostFacts(t: DocType, lines: seq<string>, sections: seq<Section>, spelled: string)
    requires ArePlaced(sections, lines, SplitLevels(t))
    requires spelled + BlocksInk(Waiting(t, sections)) == BodyInk(lines, SplitLevels(t))
    ensures spelled + LostInk(t, lines) == BodyInk(lines, SplitLevels(t))
    ensures spelled == BodyInk(lines, SplitLevels(t)) <==> !t.Faq? || Standing(lines, SplitLevels(t)) == ""
  {
    LostIsWaiting(t, lines, sections);
    LosesIff(t, lines);
    NothingMissing(spelled, LostInk(t, lines));
  }

  // The sections of a body with a title.
  ghost predicate ArePlaced(sections: seq<Section>, lines: seq<string>, levels: set<nat>) {
    && TitleOf(lines, levels).Some?
    && Stacks(sections) == PlacedPaths(lines, levels, TitleOf(lines, levels).value)
    && SectionInks(sections) == PlacedInks(lines, levels)
  }

  lemma LostIsWaiting(t: DocType, lines: seq<string>, sections: seq<Section>)
    requires ArePlaced(sections, lines, SplitLevels(t))
    ensures LostInk(t, lines) == BlocksInk(Waiting(t, sections))
  {
    if t.Faq? {
      WaitingIsTail(sections);
    } else {
      NothingWaitingText(t, sections);
    }
  }

  lemma NothingMissing(kept: string, lost: string)
    ensures kept == kept + lost <==> lost == ""
  {
    assert |kept + lost| == |kept| + |lost|;
  }

  // Without text in front of the first heading, what is lost is what stands at the end.
  lemma LostIsStanding(lines: seq<string>)
    requires TitleOf(lines, SplitLevels(Faq)).Some? && InksOf(lines, SplitLevels(Faq))[0] == ""
    ensures LostInk(Faq, lines) == Standing(lines, SplitLevels(Faq))
  {
    var levels := SplitLevels(Faq);
    var inks := InksOf(lines, levels);
    StandingIsTail(lines, levels);
    assert inks == [""] + inks[1..];
    TailBehindNothing(PathsOf(lines, levels), inks[1..]);
  }

  lemma {:induction false} TailBehindNothing(paths: seq<seq<string>>, inks: seq<string>)
    requires |paths| == |inks|
    ensures TailInk([[]] + paths, [""] + inks) == TailInk(paths, inks)
  {
    if paths == [] {
      OneInTail("");
      assert [[]] + paths == [[]] && [""] + inks == [""];
    } else {
      var n := |paths| - 1;
      TailBehindNothing(paths[..n], inks[..n]);
      assert ([[]] + paths)[..n + 1] == [[]] + paths[..n] && ([""] + inks)[..n + 1] == [""] + inks[..n];
    }
  }

  // An FAQ that is chunked and loses text.
  ghost predicate IsLossy(lines: seq<string>) {
    && SplitLines(Join(lines)) == lines && NoTableLines(lines) && TitleOf(lines, SplitLevels(Faq)).Some?
    && Standing(lines, SplitLevels(Faq)) != ""
    && LostInk(Faq, lines) != BodyInk(lines, SplitLevels(Faq))
  }

  function TopLine(c: char): string {
    ['#', ' ', c]
  }

  function QuestionLine(c: char): string {
    ['#', '#', ' ', c]
  }

  predicate IsWord(c: char) {
    !IsSpace(c) && c != '#' && c != '|'
  }

  lemma StripsTo(c: char)
    requires !IsSpace(c)
    ensures Strip([' ', c]) == [c] && Strip([c]) == [c]
  {
    assert [' ', c][1..] == [c];
    assert StripLeft([c]) == [c] && StripRight([c]) == [c] && StripLeft([' ', c]) == [c];
  }

  lemma TopLineSplits(c: char, levels: set<nat>)
    requires IsWord(c) && 1 in levels
    ensures IsLine(TopLine(c)) && SplitAt(TopLine(c), levels) == Some(Heading(1, [c])) && !IsTableLine(TopLine(c))
  {
    var line := TopLine(c);
    assert line[1..] == [' ', c] && Hashes(line[1..]) == 0;
    StripsTo(c);
    assert StripLeft(line) == line && StripRight(line) == line;
  }

  lemma QuestionLineSplits(c: char, levels: set<nat>)
    requires IsWord(c) && 2 in levels
    ensures IsLine(QuestionLine(c)) && SplitAt(QuestionLine(c), levels) == Some(Heading(2, [c]))
    ensures !IsTableLine(QuestionLine(c))
  {
    var line := QuestionLine(c);
    assert line[1..] == ['#', ' ', c] && line[1..][1..] == [' ', c] && line[2..] == [' ', c];
    assert Hashes(line[1..][1..]) == 0 && Hashes(line[1..]) == 1;
    StripsTo(c);
    assert StripLeft(line) == line && StripRight(line) == line;
  }

  lemma WordStands(c: char, levels: set<nat>)
    requires IsWord(c)
    ensures IsLine([c]) && SplitAt([c], levels) == None && !IsTableLine([c]) && Squeeze([c]) == [c]
  {
    StripsTo(c);
    assert [c][..0] == "";
  }

  // What is known at the end of some lines that begin with their title.
  ghost predicate Ends(lines: seq<string>, levels: set<nat>, path: seq<string>, ink: string, standing: string) {
    && TitleOf(lines, levels).Some? && PathAt(lines, levels) == path
    && |InksOf(lines, levels)| >= 2 && InksOf(lines, levels)[0] == ""
    && BodyInk(lines, levels) == ink && Standing(lines, levels) == standing
  }

  lemma EndsAfter(lines: seq<string>, line: string, levels: set<nat>, path: seq<string>, ink: string, standing: string)
    requires Ends(lines, levels, path, ink, standing)
    ensures var path' := PathAfter(path, SplitAt(line, levels));
            Ends(lines + [line], levels, path', ink + LineInk(line, levels),
                 if |path'| >= 2 then "" else standing + LineInk(line, levels))
  {
    assert (lines + [line])[..|lines|] == lines;
  }

  lemma EndsWithTitle(line: string, levels: set<nat>)
    requires SplitAt(line, levels).Some? && SplitAt(line, levels).value.level == 1
    ensures Ends([line], levels, [SplitAt(line, levels).value.text], "", "")
  {
    assert [line][..|[line]| - 1] == [];
  }

  // A title, a question with its answer, and a second top-level heading with text.
  lemma EndsOfFaq(t: string, q: string, a: string, u: string, b: string, levels: set<nat>)
    requires SplitAt(t, levels).Some? && SplitAt(q, levels).Some? && SplitAt(u, levels).Some?
    requires SplitAt(t, levels).value.level == 1 == SplitAt(u, levels).value.level
            && SplitAt(q, levels).value.level == 2
    requires SplitAt(a, levels) == None && SplitAt(b, levels) == None
    ensures Ends([t, q, a, u, b], levels, [SplitAt(u, levels).value.text], Squeeze(a) + Squeeze(b), Squeeze(b))
  {
    var title, question := SplitAt(t, levels).value.text, SplitAt(q, levels).value.text;
    assert [t] + [q] == [t, q] && [t, q] + [a] == [t, q, a] && [t, q, a] + [u] == [t, q, a, u];
    assert [t, q, a, u] + [b] == [t, q, a, u, b];
    EndsWithTitle(t, levels);
    EndsAfter([t], q, levels, [title], "", "");
    EndsAfter([t, q], a, levels, [title, question], "", "");
    EndsAfter([t, q, a], u, levels, [title, question], Squeeze(a), "");
    EndsAfter([t, q, a, u], b, levels, [SplitAt(u, levels).value.text], Squeeze(a), "");
  }

  ghost predicate IsText(line: string) {
    IsLine(line) && !IsTableLine(line)
  }

  lemma LinesOfFaq(t: string, q: string, a: string, u: string, b: string)
    requires IsText(t) && IsText(q) && IsText(a) && IsText(u) && IsText(b)
    ensures SplitLines(Join([t, q, a, u, b])) == [t, q, a, u, b] && NoTableLines([t, q, a, u, b])
  {
    SplitJoin([t, q, a, u, b]);
  }

  lemma EndsLossy(lines: seq<string>, path: seq<string>, a: string, b: string)
    requires SplitLines(Join(lines)) == lines && NoTableLines(lines)
    requires Ends(lines, SplitLevels(Faq), path, a + b, b) && a != "" && b != ""
    ensures IsLossy(lines)
  {
    LostIsStanding(lines);
    assert |a + b| > |b|;
  }

  // FAQs that lose what stands under their second top-level heading.
  lemma FaqLosesText(t: char, q: char, a: char, u: char, b: char)
    requires IsWord(t) && IsWord(q) && IsWord(a) && IsWord(u) && IsWord(b)
    ensures IsLossy([TopLine(t), QuestionLine(q), [a], TopLine(u), [b]])
  {
    var levels := SplitLevels(Faq);
    TopLineSplits(t, levels);
    QuestionLineSplits(q, levels);
    WordStands(a, levels);
    TopLineSplits(u, levels);
    WordStands(b, levels);
    LossyLines(TopLine(t), QuestionLine(q), [a], TopLine(u), [b]);
  }

  lemma LossyLines(t: string, q: string, a: string, u: string, b: string)
    requires IsText(t) && IsText(q) && IsText(a) && IsText(u) && IsText(b)
    requires var levels := SplitLevels(Faq);
             && SplitAt(t, levels).Some? && SplitAt(q, levels).Some? && SplitAt(u, levels).Some?
             && SplitAt(t, levels).value.level == 1 == SplitAt(u, levels).value.level
             && SplitAt(q, levels).value.level == 2 && SplitAt(a, levels) == None && SplitAt(b, levels) == None
    requires Squeeze(a) != "" && Squeeze(b) != ""
    ensures IsLossy([t, q, a, u, b])
  {
    var levels := SplitLevels(Faq);
    EndsOfFaq(t, q, a, u, b, levels);
    LinesOfFaq(t, q, a, u, b);
    EndsLossy([t, q, a, u, b], [SplitAt(u, levels).value.text], Squeeze(a), Squeeze(b));
  }

  // Every block but those still waiting could be cut.
  ghost predicate NoErrorsTaken(t: DocType, sections: seq<Section>, maxChars: nat) {
    exists taken :: taken + Waiting(t, sections) == AllBlocks(sections) && NoErrors(taken, maxChars)
  }

  lemma NothingWaitingText(t: DocType, sections: seq<Section>)
    ensures !t.Faq? ==> BlocksInk(Waiting(t, sections)) == ""
  {
    if !t.Faq? {
      NothingWaiting(t, sections);
      assert BlockTexts([]) == [] && Squeezes([]) == [];
    }
  }

  method ChunkSections(t: DocType, title: string, sections: seq<Section>, maxChars: nat, overlap: int)
    returns (r: Result<seq<Chunk>>, ghost all: seq<Answer>, ghost cuts: seq<nat>, ghost stretches: seq<Stretch>)
    requires 1 <= maxChars && SectionsOk(sections)
    ensures r.Ok? ==>
              && r.value != [] && Makes(stretches, r.value, all, cuts)
              && AreStretches(stretches, t, title, sections, maxChars, overlap)
              && Answers(r.value) == NonBlank(all) && CutsOk(all, cuts, maxChars, overlap)
              && Spelled(all, cuts) + BlocksInk(Waiting(t, sections)) == SectionsInk(sections)
    ensures r == Err(NoBody) ==> SectionsInk(sections) == BlocksInk(Waiting(t, sections))
    ensures r.Err? && r.error != NoBody ==> IsFirstError(AllBlocks(sections), maxChars, r.error)
    ensures r.Ok? || r.error == NoBody ==> NoErrorsTaken(t, sections, maxChars)
  {
    var d := new DocumentChunker(t, maxChars, overlap, title);
    var error := d.AddSections(sections);
    if error.Some? {
      return Err(error.value), [], [], [];
    }
    stretches, all, cuts := d.stretches, AnswersOf(d.stretches), CutsOf(d.stretches);
    StretchesSpell(stretches, t, title, sections, maxChars, overlap);
    ghost var taken := TakenInOrder(stretches, t, title, sections, maxChars, overlap);
    if d.chunks == [] {
      AllBlankSpellNothing(all, cuts);
      assert "" + BlocksInk(Waiting(t, sections)) == BlocksInk(Waiting(t, sections));
      return Err(NoBody), all, cuts, stretches;
    }
    return Ok(d.chunks), all, cuts, stretches;
  }
}
