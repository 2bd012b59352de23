/** Packing the blocks of a section into answers: greedy filling, tables on their own, whole-sentence overlap
    (app/knowledge/chunking.py, _emit_answers). A group is what one answer holds before overlaps are put in front: the
    units of some paragraphs, or one piece of a table with its header. The packer is specified by the groups it leaves
    behind, and the answers by what they repeat: without their overlaps and repeated headers they spell the blocks of
    the section, each is within the limit, and each overlap is the longest whole-sentence suffix of the answer
    before it. */
module ChunkPacking {
  import opened Basics
  import opened ChunkText

  datatype Block = Para(text: string, line: nat) | Table(text: string, line: nat)

  // What is packed: a unit of a paragraph, which opens its paragraph or not, or a piece of a table, which repeats
  // that many characters of header.
  datatype Item = Words(unit: Unit, opens: bool) | Piece(text: string, repeated: nat)

  datatype Raw = Raw(isTable: bool, text: string, hard: bool)

  datatype Answer = Answer(text: string, isTable: bool, hasOverlap: bool, isHardCut: bool)

  function ItemInk(item: Item): string {
    match item
    case Words(unit, _) => Squeeze(unit.text)
    case Piece(text, repeated) => Squeeze(Drop(text, repeated))
  }

  function Inks(items: seq<Item>): (inks: seq<string>)
    ensures |inks| == |items| && forall i :: 0 <= i < |inks| ==> inks[i] == ItemInk(items[i])
  {
    seq(|items|, i requires 0 <= i < |items| => ItemInk(items[i]))
  }

  function ItemsInk(items: seq<Item>): string {
    Concat(Inks(items))
  }

  lemma ItemsInkConcat(a: seq<Item>, b: seq<Item>)
    ensures ItemsInk(a + b) == ItemsInk(a) + ItemsInk(b)
  {
    assert Inks(a + b) == Inks(a) + Inks(b);
    ConcatConcat(Inks(a), Inks(b));
  }

  lemma ItemsInkOne(item: Item)
    ensures ItemsInk([item]) == ItemInk(item)
  {
    assert Inks([item]) == [ItemInk(item)];
    ConcatOne(ItemInk(item));
  }

  // ---------------------------------------------------------------- the items of the blocks

  function WordItems(units: seq<Unit>): (items: seq<Item>)
    ensures |items| == |units| && forall j :: 0 <= j < |items| ==> items[j] == Words(units[j], j == 0)
  {
    seq(|units|, j requires 0 <= j < |units| => Words(units[j], j == 0))
  }

  function LaterPieces(header: string, pieces: seq<string>): (items: seq<Item>)
    ensures |items| == |pieces| && forall j :: 0 <= j < |items| ==> items[j] == Piece(pieces[j], |header|)
  {
    seq(|pieces|, j requires 0 <= j < |pieces| => Piece(pieces[j], |header|))
  }

  function PieceItems(header: string, pieces: seq<string>): seq<Item>
    requires pieces != []
  {
    [Piece(pieces[0], 0)] + LaterPieces(header, pieces[1..])
  }

  function BlockError(b: Block, maxChars: nat): Option<ChunkError> {
    if b.Table? then TableError(b.text, maxChars, b.line) else None
  }

  function BlockItems(b: Block, maxChars: nat): seq<Item>
    requires 1 <= maxChars && BlockError(b, maxChars).None?
  {
    if b.Para? then WordItems(UnitsOf(b.text, maxChars))
    else
      var lines, header := SplitLines(b.text), Join(SplitLines(b.text)[..2]);
      PieceItems(header, PiecesFrom(header, header, lines[2..], maxChars))
  }

  predicate NoErrors(blocks: seq<Block>, maxChars: nat) {
    forall i :: 0 <= i < |blocks| ==> BlockError(blocks[i], maxChars).None?
  }

  function Flat(groups: seq<seq<Item>>): seq<Item> {
    if groups == [] then [] else Flat(groups[..|groups| - 1]) + groups[|groups| - 1]
  }

  function GroupInks(groups: seq<seq<Item>>): (inks: seq<string>)
    ensures |inks| == |groups| && forall i :: 0 <= i < |inks| ==> inks[i] == ItemsInk(groups[i])
  {
    seq(|groups|, i requires 0 <= i < |groups| => ItemsInk(groups[i]))
  }

  lemma {:induction false} FlatInk(groups: seq<seq<Item>>)
    ensures ItemsInk(Flat(groups)) == Concat(GroupInks(groups))
  {
    if groups == [] {
      assert Inks([]) == [] && GroupInks(groups) == [];
    } else {
      var n := |groups| - 1;
      FlatInk(groups[..n]);
      ItemsInkConcat(Flat(groups[..n]), groups[n]);
      assert GroupInks(groups)[..n] == GroupInks(groups[..n]);
    }
  }

  function ItemGroups(blocks: seq<Block>, maxChars: nat): (groups: seq<seq<Item>>)
    requires 1 <= maxChars && NoErrors(blocks, maxChars)
    ensures |groups| == |blocks| && forall i :: 0 <= i < |groups| ==> groups[i] == BlockItems(blocks[i], maxChars)
  {
    seq(|blocks|, i requires 0 <= i < |blocks| => BlockItems(blocks[i], maxChars))
  }

  function BlocksItems(blocks: seq<Block>, maxChars: nat): seq<Item>
    requires 1 <= maxChars && NoErrors(blocks, maxChars)
  {
    Flat(ItemGroups(blocks, maxChars))
  }

  function BlockTexts(blocks: seq<Block>): (texts: seq<string>)
    ensures |texts| == |blocks| && forall i :: 0 <= i < |texts| ==> texts[i] == blocks[i].text
  {
    seq(|blocks|, i requires 0 <= i < |blocks| => blocks[i].text)
  }

  function BlocksInk(blocks: seq<Block>): string {
    Ink(BlockTexts(blocks))
  }

  lemma BlocksInkConcat(a: seq<Block>, b: seq<Block>)
    ensures BlocksInk(a + b) == BlocksInk(a) + BlocksInk(b)
  {
    assert BlockTexts(a + b) == BlockTexts(a) + BlockTexts(b);
    InkConcat(BlockTexts(a), BlockTexts(b));
  }

  lemma BlocksInkMore(blocks: seq<Block>, b: Block)
    ensures BlocksInk(blocks + [b]) == BlocksInk(blocks) + Squeeze(b.text)
  {
    BlocksInkConcat(blocks, [b]);
    assert BlockTexts([b]) == [b.text];
    InkOne(b.text);
  }

  // ---------------------------------------------------------------- the items spell the blocks

  lemma {:induction false} ConcatInk(texts: seq<string>, inks: seq<string>)
    requires |inks| == |texts| && forall i :: 0 <= i < |texts| ==> inks[i] == Squeeze(texts[i])
    ensures Concat(inks) == Squeeze(Concat(texts))
  {
    if texts != [] {
      var n := |texts| - 1;
      ConcatInk(texts[..n], inks[..n]);
      SqueezeConcat(Concat(texts[..n]), texts[n]);
    }
  }

  lemma ParaInk(text: string, maxChars: nat)
    requires 1 <= maxChars && text != ""
    ensures ItemsInk(WordItems(UnitsOf(text, maxChars))) == Squeeze(text)
  {
    var units := UnitsOf(text, maxChars);
    UnitsFacts(text, maxChars);
    ConcatInk(Texts(units), Inks(WordItems(units)));
  }

  ghost predicate ArePieces(header: string, pieces: seq<string>, maxChars: nat) {
    forall i :: 0 <= i < |pieces| ==> header <= pieces[i] && |pieces[i]| <= maxChars
  }

  lemma LaterPiecesCons(header: string, first: string, rest: seq<string>)
    ensures ItemsInk(LaterPieces(header, [first] + rest))
            == Squeeze(Drop(first, |header|)) + ItemsInk(LaterPieces(header, rest))
  {
    assert LaterPieces(header, [first] + rest) == [Piece(first, |header|)] + LaterPieces(header, rest);
    ItemsInkConcat([Piece(first, |header|)], LaterPieces(header, rest));
    ItemsInkOne(Piece(first, |header|));
  }

  // Every piece starts with the header and fits.
  lemma {:induction false} PiecesFit(header: string, cur: string, rows: seq<string>, maxChars: nat)
    requires header <= cur && |cur| <= maxChars
    requires forall i :: 0 <= i < |rows| ==> RowFits(header, rows[i], maxChars)
    ensures ArePieces(header, PiecesFrom(header, cur, rows, maxChars), maxChars)
    decreases |rows|
  {
    if rows != [] {
      if |cur| + 1 + |rows[0]| > maxChars {
        PiecesFit(header, header + "\n" + rows[0], rows[1..], maxChars);
      } else {
        PiecesFit(header, cur + "\n" + rows[0], rows[1..], maxChars);
      }
    }
  }

  lemma RowInk(header: string, cur: string, row: string)
    requires header <= cur
    ensures Squeeze((cur + "\n" + row)[|header|..]) == Squeeze(cur[|header|..]) + Squeeze(row)
  {
    var tail := cur[|header|..];
    assert (cur + "\n" + row)[|header|..] == tail + "\n" + row;
    SqueezeConcat(tail + "\n", row);
    SqueezeConcat(tail, "\n");
    SqueezeBlank("\n");
  }

  lemma InkCons(first: string, rest: seq<string>)
    ensures Ink([first] + rest) == Squeeze(first) + Ink(rest)
  {
    InkConcat([first], rest);
    InkOne(first);
  }

  lemma OnePieceInk(header: string, cur: string)
    requires header <= cur
    ensures ItemsInk(LaterPieces(header, [cur])) == Squeeze(cur[|header|..])
  {
    LaterPiecesCons(header, cur, []);
    assert [cur] + [] == [cur];
    assert LaterPieces(header, []) == [];
  }

  // Behind the headers the pieces spell the rows.
  lemma {:induction false} PiecesInk(header: string, cur: string, rows: seq<string>, maxChars: nat)
    requires header <= cur
    ensures ItemsInk(LaterPieces(header, PiecesFrom(header, cur, rows, maxChars)))
            == Squeeze(cur[|header|..]) + Ink(rows)
    decreases |rows|
  {
    if rows == [] {
      OnePieceInk(header, cur);
    } else {
      assert rows == [rows[0]] + rows[1..];
      InkCons(rows[0], rows[1..]);
      if |cur| + 1 + |rows[0]| > maxChars {
        var again := header + "\n" + rows[0];
        PiecesInk(header, again, rows[1..], maxChars);
        NextPieceInk(header, cur, rows[0], PiecesFrom(header, again, rows[1..], maxChars), Ink(rows[1..]));
      } else {
        PiecesInk(header, cur + "\n" + rows[0], rows[1..], maxChars);
        SamePieceInk(header, cur, rows[0], Ink(rows[1..]));
      }
    }
  }

  lemma NextPieceInk(header: string, cur: string, row: string, pieces: seq<string>, rest: string)
    requires header <= cur
    requires ItemsInk(LaterPieces(header, pieces)) == Squeeze((header + "\n" + row)[|header|..]) + rest
    ensures ItemsInk(LaterPieces(header, [cur] + pieces)) == Squeeze(cur[|header|..]) + (Squeeze(row) + rest)
  {
    assert Squeeze((header + "\n" + row)[|header|..]) == Squeeze(row) by {
      RowInk(header, header, row);
      assert header[|header|..] == "";
    }
    LaterPiecesCons(header, cur, pieces);
  }

  lemma SamePieceInk(header: string, cur: string, row: string, rest: string)
    requires header <= cur
    ensures Squeeze((cur + "\n" + row)[|header|..]) + rest == Squeeze(cur[|header|..]) + (Squeeze(row) + rest)
  {
    RowInk(header, cur, row);
  }

  lemma BehindHeader(header: string, piece: string)
    requires header <= piece
    ensures Squeeze(piece) == Squeeze(header) + Squeeze(Drop(piece, |header|))
  {
    assert piece == header + piece[|header|..];
    SqueezeConcat(header, piece[|header|..]);
  }

  lemma PieceItemsInk(header: string, first: string, rest: seq<string>)
    requires header <= first
    ensures ItemsInk(PieceItems(header, [first] + rest))
            == Squeeze(header) + ItemsInk(LaterPieces(header, [first] + rest))
  {
    var h, d, later := Squeeze(header), Squeeze(Drop(first, |header|)), ItemsInk(LaterPieces(header, rest));
    assert ItemsInk(LaterPieces(header, [first] + rest)) == d + later by {
      LaterPiecesCons(header, first, rest);
    }
    assert ItemsInk(PieceItems(header, [first] + rest)) == (h + d) + later by {
      assert ([first] + rest)[1..] == rest;
      ItemsInkConcat([Piece(first, 0)], LaterPieces(header, rest));
      ItemsInkOne(Piece(first, 0));
      BehindHeader(header, first);
      assert first[0..] == first;
    }
  }

  lemma HeaderAndRowsInk(text: string)
    requires |SplitLines(text)| >= 2
    ensures Squeeze(text) == Squeeze(Join(SplitLines(text)[..2])) + Ink(SplitLines(text)[2..])
  {
    var lines := SplitLines(text);
    SqueezeJoin(lines[..2]);
    SqueezeJoin(lines);
    InkConcat(lines[..2], lines[2..]);
    assert lines == lines[..2] + lines[2..];
    JoinSplit(text);
  }

  // The pieces of a table, the first in full and the others behind their repeated header, spell the table.
  lemma PiecesSpell(header: string, rows: seq<string>, maxChars: nat)
    ensures ItemsInk(PieceItems(header, PiecesFrom(header, header, rows, maxChars))) == Squeeze(header) + Ink(rows)
  {
    var pieces := PiecesFrom(header, header, rows, maxChars);
    FirstPiece(header, header, rows, maxChars);
    assert ItemsInk(LaterPieces(header, pieces)) == Ink(rows) by {
      PiecesInk(header, header, rows, maxChars);
      assert header[|header|..] == "";
    }
    assert pieces == [pieces[0]] + pieces[1..];
    PieceItemsInk(header, pieces[0], pieces[1..]);
  }

  lemma {:induction false} FirstPiece(header: string, cur: string, rows: seq<string>, maxChars: nat)
    requires header <= cur
    ensures header <= PiecesFrom(header, cur, rows, maxChars)[0]
    decreases |rows|
  {
    if rows != [] && |cur| + 1 + |rows[0]| <= maxChars {
      FirstPiece(header, cur + "\n" + rows[0], rows[1..], maxChars);
    }
  }

  lemma TableInk(text: string, maxChars: nat, base: nat)
    requires TableError(text, maxChars, base).None?
    ensures var lines, header := SplitLines(text), Join(SplitLines(text)[..2]);
            var pieces := PiecesFrom(header, header, lines[2..], maxChars);
            && ArePieces(header, pieces, maxChars) && ItemsInk(PieceItems(header, pieces)) == Squeeze(text)
  {
    var header, rows := Join(SplitLines(text)[..2]), SplitLines(text)[2..];
    PiecesFit(header, header, rows, maxChars);
    PiecesSpell(header, rows, maxChars);
    HeaderAndRowsInk(text);
  }

  lemma BlockItemsInk(b: Block, maxChars: nat)
    requires 1 <= maxChars && BlockError(b, maxChars).None? && b.text != ""
    ensures ItemsInk(BlockItems(b, maxChars)) == Squeeze(b.text)
  {
    if b.Para? {
      ParaInk(b.text, maxChars);
    } else {
      TableInk(b.text, maxChars, b.line);
    }
  }

  lemma BlocksItemsInk(blocks: seq<Block>, maxChars: nat)
    requires 1 <= maxChars && NoErrors(blocks, maxChars)
    requires forall i :: 0 <= i < |blocks| ==> blocks[i].text != ""
    ensures ItemsInk(BlocksItems(blocks, maxChars)) == BlocksInk(blocks)
  {
    var groups := ItemGroups(blocks, maxChars);
    FlatInk(groups);
    forall i | 0 <= i < |blocks| ensures ItemsInk(groups[i]) == Squeeze(blocks[i].text) {
      BlockItemsInk(blocks[i], maxChars);
    }
    assert GroupInks(groups) == Squeezes(BlockTexts(blocks));
  }

  // ---------------------------------------------------------------- packing

  predicate AllWords(group: seq<Item>) {
    forall i :: 0 <= i < |group| ==> group[i].Words?
  }

  function Joined(item: Item): string
    requires item.Words?
  {
    if item.opens then "\n" + item.unit.text else item.unit.text
  }

  // The first unit as it is, each later one behind a line break if it opens a paragraph.
  function RenderParts(group: seq<Item>): (parts: seq<string>)
    requires AllWords(group)
    ensures |parts| == |group|
    ensures forall i :: 0 <= i < |parts| ==> parts[i] == if i == 0 then group[i].unit.text else Joined(group[i])
  {
    seq(|group|, i requires 0 <= i < |group| => if i == 0 then group[i].unit.text else Joined(group[i]))
  }

  function RenderWords(group: seq<Item>): string
    requires AllWords(group)
  {
    Concat(RenderParts(group))
  }

  predicate AnyHard(group: seq<Item>) {
    exists i :: 0 <= i < |group| && group[i].Words? && group[i].unit.hard
  }

  predicate IsGroup(group: seq<Item>) {
    (group != [] && AllWords(group)) || (|group| == 1 && group[0].Piece?)
  }

  function Render(group: seq<Item>): Raw
    requires IsGroup(group)
  {
    if group[0].Piece? then Raw(true, group[0].text, false) else Raw(false, RenderWords(group), AnyHard(group))
  }

  // What the chunk in position k may fill: only the first one need not leave room for an overlap.
  function Capacity(k: nat, maxChars: nat, overlap: int): int {
    if k == 0 || overlap <= 0 then maxChars else maxChars - (overlap + 1)
  }

  // More than one unit only while they fit.
  predicate Fits(group: seq<Item>, capacity: int)
    requires IsGroup(group)
  {
    group[0].Words? && |group| > 1 ==> |RenderWords(group)| <= capacity
  }

  // The first unit of a group did not fit into the group of words right before it.
  predicate Overflows(before: seq<Item>, group: seq<Item>, capacity: int)
    requires IsGroup(before) && IsGroup(group)
  {
    before[0].Words? && group[0].Words? ==> |RenderWords(before)| + |Joined(group[0])| > capacity
  }

  ghost predicate LastIsGroup(groups: seq<seq<Item>>) {
    groups != [] ==> IsGroup(groups[|groups| - 1])
  }

  // A piece of a table repeats nothing, or the header that the piece right before it begins with.
  ghost predicate RepeatsHeader(groups: seq<seq<Item>>, group: seq<Item>) {
    group != [] && group[0].Piece? && group[0].repeated > 0 ==>
      && groups != [] && IsGroup(groups[|groups| - 1])
      && var before := groups[|groups| - 1][0];
         before.Piece? && SamePrefix(before.text, group[0].text, group[0].repeated)
  }

  predicate SamePrefix(a: string, b: string, n: nat) {
    n <= |a| && n <= |b| && a[..n] == b[..n]
  }

  // A group, as number k behind the group before it.
  ghost predicate IsNext(groups: seq<seq<Item>>, group: seq<Item>, raw: Raw, maxChars: nat, overlap: int) {
    && LastIsGroup(groups) && IsGroup(group) && raw == Render(group) && |raw.text| <= maxChars
    && RepeatsHeader(groups, group)
    && Fits(group, Capacity(|groups|, maxChars, overlap))
    && (groups != [] ==> Overflows(groups[|groups| - 1], group, Capacity(|groups| - 1, maxChars, overlap)))
  }

  ghost predicate PackedAt(groups: seq<seq<Item>>, raws: seq<Raw>, k: nat, maxChars: nat, overlap: int) {
    && k < |groups| && k < |raws| && IsGroup(groups[k]) && raws[k] == Render(groups[k]) && |raws[k].text| <= maxChars
    && Fits(groups[k], Capacity(k, maxChars, overlap)) && RepeatsHeader(groups[..k], groups[k])
    && (k > 0 ==> IsGroup(groups[k - 1]) && Overflows(groups[k - 1], groups[k], Capacity(k - 1, maxChars, overlap)))
  }

  // The items, in order, cut into the groups that greedy filling gives, each rendered and none too long.
  ghost predicate IsPacking(groups: seq<seq<Item>>, raws: seq<Raw>, maxChars: nat, overlap: int) {
    |raws| == |groups| && forall k :: 0 <= k < |groups| ==> PackedAt(groups, raws, k, maxChars, overlap)
  }

  // The group being filled, to become group number k.
  ghost predicate IsOpen(groups: seq<seq<Item>>, cur: seq<Item>, curText: string, curHard: bool,
                         maxChars: nat, overlap: int) {
    && LastIsGroup(groups) && AllWords(cur) && curText == RenderWords(cur) && |curText| <= maxChars
    && (curText == "" <==> cur == []) && curHard == AnyHard(cur)
    && (cur != [] ==> Fits(cur, Capacity(|groups|, maxChars, overlap)))
    && (cur != [] && groups != [] ==>
          Overflows(groups[|groups| - 1], cur, Capacity(|groups| - 1, maxChars, overlap)))
  }

  lemma AddGroup(groups: seq<seq<Item>>, raws: seq<Raw>, group: seq<Item>, raw: Raw, maxChars: nat, overlap: int)
    requires IsPacking(groups, raws, maxChars, overlap) && IsNext(groups, group, raw, maxChars, overlap)
    ensures IsPacking(groups + [group], raws + [raw], maxChars, overlap)
    ensures Flat(groups + [group]) == Flat(groups) + group
  {
    var groups', raws' := groups + [group], raws + [raw];
    forall k | 0 <= k < |groups'| ensures PackedAt(groups', raws', k, maxChars, overlap) {
      assert k < |groups| ==> PackedAt(groups, raws, k, maxChars, overlap);
      assert groups'[..k] == groups[..k];
    }
    assert groups'[..|groups|] == groups;
  }

  // The open chunk becomes an answer, and nothing is open.
  lemma CloseGroup(groups: seq<seq<Item>>, raws: seq<Raw>, cur: seq<Item>, text: string, hard: bool, maxChars: nat,
                   overlap: int)
    requires IsPacking(groups, raws, maxChars, overlap) && IsOpen(groups, cur, text, hard, maxChars, overlap)
    requires text != ""
    ensures IsPacking(groups + [cur], raws + [Raw(false, text, hard)], maxChars, overlap)
    ensures Flat(groups + [cur]) == Flat(groups) + cur && cur != []
    ensures IsOpen(groups + [cur], [], "", false, maxChars, overlap)
  {
    AddGroup(groups, raws, cur, Raw(false, text, hard), maxChars, overlap);
    assert RenderParts([]) == [];
  }

  lemma AddUnitText(cur: seq<Item>, item: Item)
    requires AllWords(cur) && item.Words? && cur != []
    ensures AllWords(cur + [item]) && RenderWords(cur + [item]) == RenderWords(cur) + Joined(item)
  {
    assert RenderParts(cur + [item]) == RenderParts(cur) + [Joined(item)];
    ConcatConcat(RenderParts(cur), [Joined(item)]);
    ConcatOne(Joined(item));
  }

  lemma OneUnitText(item: Item)
    requires item.Words?
    ensures RenderWords([item]) == item.unit.text && AnyHard([item]) == item.unit.hard
  {
    assert RenderParts([item]) == [item.unit.text];
    ConcatOne(item.unit.text);
    assert [item][0] == item;
  }

  lemma AddUnitHard(cur: seq<Item>, item: Item)
    requires item.Words?
    ensures AnyHard(cur + [item]) == (AnyHard(cur) || item.unit.hard)
  {
    if AnyHard(cur) {
      var i :| 0 <= i < |cur| && cur[i].Words? && cur[i].unit.hard;
      assert (cur + [item])[i] == cur[i];
    }
    assert (cur + [item])[|cur|] == item;
  }

  // The item may open a group behind these: it did not fit into the last one, or that one is a piece of a table.
  ghost predicate MayFollow(groups: seq<seq<Item>>, item: Item, maxChars: nat, overlap: int)
    requires item.Words?
  {
    && LastIsGroup(groups)
    && (groups != [] ==> Overflows(groups[|groups| - 1], [item], Capacity(|groups| - 1, maxChars, overlap)))
  }

  lemma ClosedMayFollow(groups: seq<seq<Item>>, cur: seq<Item>, item: Item, maxChars: nat, overlap: int)
    requires cur != [] && AllWords(cur) && item.Words?
    requires |RenderWords(cur)| + |Joined(item)| > Capacity(|groups|, maxChars, overlap)
    ensures MayFollow(groups + [cur], item, maxChars, overlap)
  {
    assert (groups + [cur])[|groups|] == cur;
  }

  lemma OpenNew(groups: seq<seq<Item>>, item: Item, maxChars: nat, overlap: int)
    requires item.Words? && MayFollow(groups, item, maxChars, overlap) && 1 <= |item.unit.text| <= maxChars
    ensures IsOpen(groups, [item], item.unit.text, item.unit.hard, maxChars, overlap)
  {
    OneUnitText(item);
  }

  lemma OpenMore(groups: seq<seq<Item>>, cur: seq<Item>, curText: string, curHard: bool, item: Item,
                 maxChars: nat, overlap: int)
    requires IsOpen(groups, cur, curText, curHard, maxChars, overlap) && cur != [] && item.Words?
    requires |curText| + |Joined(item)| <= Capacity(|groups|, maxChars, overlap)
    ensures IsOpen(groups, cur + [item], curText + Joined(item), curHard || item.unit.hard, maxChars, overlap)
  {
    AddUnitText(cur, item);
    AddUnitHard(cur, item);
    assert (cur + [item])[0] == cur[0];
  }

  ghost predicate LastIsPiece(groups: seq<seq<Item>>) {
    groups != [] ==> groups[|groups| - 1] != [] && groups[|groups| - 1][0].Piece?
  }

  lemma OneMoreItem(before: seq<Item>, items: seq<Item>, j: nat)
    requires j < |items|
    ensures before + items[..j + 1] == before + items[..j] + [items[j]]
  {
  }

  // The first loop of _emit_answers and the variables it shares with close_text.
  class Packer {
    const maxChars: nat
    const overlap: int
    var answers: seq<Raw>
    var curText: string
    var curHard: bool
    var curCapacity: int
    ghost var groups: seq<seq<Item>>
    ghost var cur: seq<Item>

    constructor (maxChars: nat, overlap: int)
      requires 1 <= maxChars
      ensures this.maxChars == maxChars && this.overlap == overlap
      ensures Valid() && Settled() && Items() == [] && answers == []
    {
      this.maxChars, this.overlap := maxChars, overlap;
      answers, curText, curHard, curCapacity := [], "", false, maxChars;
      groups, cur := [], [];
      new;
      assert RenderParts([]) == [];
    }

    ghost predicate Valid()
      reads this
    {
      && 1 <= maxChars && IsPacking(groups, answers, maxChars, overlap)
      && IsOpen(groups, cur, curText, curHard, maxChars, overlap)
      && curCapacity == Capacity(|answers|, maxChars, overlap)
    }

    // Between units: an empty buffer never follows a chunk of words.
    ghost predicate Settled()
      reads this
    {
      cur != [] || LastIsPiece(groups)
    }

    ghost function Items(): seq<Item>
      reads this
    {
      Flat(groups) + cur
    }

    method CloseText()
      requires Valid()
      modifies this
      ensures Valid() && Items() == old(Items()) && cur == []
      ensures groups == if old(cur) == [] then old(groups) else old(groups) + [old(cur)]
    {
      if curText != "" {
        CloseGroup(groups, answers, cur, curText, curHard, maxChars, overlap);
        answers := answers + [Raw(false, curText, curHard)];
        groups, cur := groups + [cur], [];
        curText := "";
        curHard := false;
        curCapacity := maxChars - if overlap > 0 then overlap + 1 else 0;
      }
    }

    method Append(joiner: string, unit: Unit, first: bool)
      requires Valid() && 1 <= |unit.text| <= maxChars
      requires cur == [] ==> MayFollow(groups, Words(unit, first), maxChars, overlap)
      requires cur != [] ==> joiner + unit.text == Joined(Words(unit, first))
      requires cur != [] ==> |curText| + |joiner + unit.text| <= curCapacity
      modifies this`curText, this`curHard, this`cur
      ensures Valid() && cur == old(cur) + [Words(unit, first)]
    {
      ghost var item := Words(unit, first);
      if curText != "" {
        OpenMore(groups, cur, curText, curHard, item, maxChars, overlap);
      } else {
        OpenNew(groups, item, maxChars, overlap);
        assert cur + [item] == [item];
      }
      curText := if curText != "" then curText + (joiner + unit.text) else unit.text;
      curHard := curHard || unit.hard;
      cur := cur + [item];
    }

    // Makes room for a unit, and says what joins it to the text already there.
    method MakeRoom(unit: Unit, first: bool) returns (joiner: string)
      requires Valid() && Settled() && 1 <= |unit.text| <= maxChars
      modifies this
      ensures Valid() && Items() == old(Items())
      ensures cur == [] ==> MayFollow(groups, Words(unit, first), maxChars, overlap)
      ensures cur != [] ==> joiner + unit.text == Joined(Words(unit, first))
      ensures cur != [] ==> |curText| + |joiner + unit.text| <= curCapacity
    {
      joiner := if curText != "" && first then "\n" else "";
      if curText != "" && |curText| + |joiner| + |unit.text| > curCapacity {
        ClosedMayFollow(groups, cur, Words(unit, first), maxChars, overlap);
        CloseText();
        joiner := "";
      }
    }

    method AddUnit(unit: Unit, first: bool)
      requires Valid() && Settled() && 1 <= |unit.text| <= maxChars
      modifies this
      ensures Valid() && Settled() && cur != [] && Items() == old(Items()) + [Words(unit, first)]
    {
      var joiner := MakeRoom(unit, first);
      Append(joiner, unit, first);
    }

    method AddTablePiece(piece: string, ghost repeated: nat)
      requires Valid() && cur == [] && |piece| <= maxChars && RepeatsHeader(groups, [Piece(piece, repeated)])
      modifies this
      ensures Valid() && cur == [] && groups == old(groups) + [[Piece(piece, repeated)]]
      ensures Items() == old(Items()) + [Piece(piece, repeated)]
    {
      AddGroup(groups, answers, [Piece(piece, repeated)], Raw(true, piece, false), maxChars, overlap);
      answers := answers + [Raw(true, piece, false)];
      groups := groups + [[Piece(piece, repeated)]];
      curCapacity := maxChars - if overlap > 0 then overlap + 1 else 0;
    }

    method AddUnits(units: seq<Unit>)
      requires Valid() && Settled() && forall j :: 0 <= j < |units| ==> 1 <= |units[j].text| <= maxChars
      modifies this
      ensures Valid() && Settled() && Items() == old(Items()) + WordItems(units)
    {
      ghost var before, items := Items(), WordItems(units);
      for j := 0 to |units|
        invariant Valid() && Settled() && Items() == before + items[..j]
      {
        OneMoreItem(before, items, j);
        AddUnit(units[j], j == 0);
      }
      assert items[..|units|] == items;
    }

    // The units of one paragraph.
    method AddPara(text: string)
      requires Valid() && Settled() && text != ""
      modifies this
      ensures Valid() && Settled() && Items() == old(Items()) + WordItems(UnitsOf(text, maxChars))
    {
      UnitsFacts(text, maxChars);
      var units := ParaUnits(text, maxChars);
      AddUnits(units);
    }

    // The pieces of one table.
    method AddTable(pieces: seq<string>, ghost header: string)
      requires Valid() && cur == [] && pieces != [] && ArePieces(header, pieces, maxChars)
      modifies this
      ensures Valid() && Settled() && Items() == old(Items()) + PieceItems(header, pieces)
    {
      ghost var items := PieceItems(header, pieces);
      for j := 0 to |pieces|
        invariant Valid() && cur == [] && Items() == old(Items()) + items[..j]
        invariant j > 0 ==> groups != [] && groups[|groups| - 1] == [items[j - 1]]
      {
        if j > 0 {
          assert items[j - 1].text == pieces[j - 1];
          assert SamePrefix(pieces[j - 1], pieces[j], |header|);
        }
        AddTablePiece(pieces[j], if j == 0 then 0 else |header|);
        assert items[j] == Piece(pieces[j], if j == 0 then 0 else |header|);
        assert items[..j + 1] == items[..j] + [items[j]];
      }
      assert items[..|pieces|] == items;
    }

    method AddBlock(b: Block) returns (error: Option<ChunkError>)
      requires Valid() && Settled() && b.text != ""
      modifies this
      ensures error == BlockError(b, maxChars)
      ensures error.None? ==> Valid() && Settled() && Items() == old(Items()) + BlockItems(b, maxChars)
    {
      if b.Table? {
        CloseText();
        var pieces := TableChunks(b.text, maxChars, b.line);
        if pieces.Err? {
          return Some(pieces.error);
        }
        TableInk(b.text, maxChars, b.line);
        AddTable(pieces.value, Join(SplitLines(b.text)[..2]));
      } else {
        AddPara(b.text);
      }
      return None;
    }
  }

  ghost predicate NoneEmpty(blocks: seq<Block>) {
    forall i :: 0 <= i < |blocks| ==> blocks[i].text != ""
  }

  // The first block that cannot be cut stops the document.
  ghost predicate IsFirstError(blocks: seq<Block>, maxChars: nat, error: ChunkError) {
    exists i :: 0 <= i < |blocks| && NoErrors(blocks[..i], maxChars) && BlockError(blocks[i], maxChars) == Some(error)
  }

  lemma FirstErrorAt(blocks: seq<Block>, i: nat, maxChars: nat)
    requires i < |blocks| && NoErrors(blocks[..i], maxChars) && BlockError(blocks[i], maxChars).Some?
    ensures IsFirstError(blocks, maxChars, BlockError(blocks[i], maxChars).value) && !NoErrors(blocks, maxChars)
  {
  }

  lemma OneMoreBlock(blocks: seq<Block>, i: nat, maxChars: nat)
    requires 1 <= maxChars && i < |blocks| && NoErrors(blocks[..i], maxChars) && BlockError(blocks[i], maxChars).None?
    ensures NoErrors(blocks[..i + 1], maxChars)
    ensures BlocksItems(blocks[..i + 1], maxChars)
            == BlocksItems(blocks[..i], maxChars) + BlockItems(blocks[i], maxChars)
  {
    var groups := ItemGroups(blocks[..i + 1], maxChars);
    assert groups[..i] == ItemGroups(blocks[..i], maxChars);
  }

  method PackBlocks(blocks: seq<Block>, maxChars: nat, overlap: int)
    returns (r: Result<seq<Raw>>, ghost groups: seq<seq<Item>>)
    requires 1 <= maxChars && NoneEmpty(blocks)
    ensures r.Ok? <==> NoErrors(blocks, maxChars)
    ensures r.Err? ==> IsFirstError(blocks, maxChars, r.error)
    ensures r.Ok? ==> IsPacking(groups, r.value, maxChars, overlap) && Flat(groups) == BlocksItems(blocks, maxChars)
  {
    var packer := new Packer(maxChars, overlap);
    for i := 0 to |blocks|
      invariant fresh(packer) && packer.maxChars == maxChars && packer.overlap == overlap
      invariant packer.Valid() && packer.Settled() && NoErrors(blocks[..i], maxChars)
      invariant packer.Items() == BlocksItems(blocks[..i], maxChars)
    {
      var error := packer.AddBlock(blocks[i]);
      if error.Some? {
        FirstErrorAt(blocks, i, maxChars);
        return Err(error.value), [];
      }
      OneMoreBlock(blocks, i, maxChars);
    }
    assert blocks[..|blocks|] == blocks;
    packer.CloseText();
    assert packer.Items() == Flat(packer.groups);
    return Ok(packer.answers), packer.groups;
  }

  // ---------------------------------------------------------------- overlap

  // What is taken over from the chunk before.
  ghost predicate IsOverlap(text: string, budget: int, suffix: string) {
    && (budget <= 0 || !Closed(text) ==> suffix == "")
    && (0 < budget && Closed(text) ==>
          exists k: nat :: IsOverlapStart(text, budget, k) && suffix == TrimNewlines(text[k..]))
  }

  // Answer i, given answer i - 1: a chunk of words behind a chunk of words begins with the overlap, if there is one and
  // the answer still fits.
  ghost predicate OverlapOk(before: Option<Answer>, raw: Raw, answer: Answer, suffix: string, maxChars: nat,
                            overlap: int) {
    && answer.isTable == raw.isTable && answer.isHardCut == raw.hard
    && (if before.Some? && !before.value.isTable && !raw.isTable
        then IsOverlap(before.value.text, overlap, suffix) else suffix == "")
    && answer.hasOverlap == (suffix != "" && |suffix| + 1 + |raw.text| <= maxChars)
    && answer.text == if answer.hasOverlap then suffix + "\n" + raw.text else raw.text
  }

  function Before(answers: seq<Answer>, i: nat): Option<Answer>
    requires i <= |answers|
  {
    if i == 0 then None else Some(answers[i - 1])
  }

  ghost predicate Overlapped(answers: seq<Answer>, raws: seq<Raw>, suffixes: seq<string>, maxChars: nat, overlap: int) {
    && |answers| == |raws| == |suffixes|
    && (answers != [] ==>
          var n := |answers| - 1;
          && Overlapped(answers[..n], raws[..n], suffixes[..n], maxChars, overlap)
          && OverlapOk(Before(answers, n), raws[n], answers[n], suffixes[n], maxChars, overlap))
  }

  lemma OneMoreOverlapped(answers: seq<Answer>, answer: Answer, raws: seq<Raw>, raw: Raw, suffixes: seq<string>,
                          suffix: string, maxChars: nat, overlap: int)
    requires Overlapped(answers, raws, suffixes, maxChars, overlap)
    requires OverlapOk(Before(answers, |answers|), raw, answer, suffix, maxChars, overlap)
    ensures Overlapped(answers + [answer], raws + [raw], suffixes + [suffix], maxChars, overlap)
  {
    assert (answers + [answer])[..|answers|] == answers;
    assert (raws + [raw])[..|raws|] == raws;
    assert (suffixes + [suffix])[..|suffixes|] == suffixes;
    assert Before(answers + [answer], |answers|) == Before(answers, |answers|);
  }

  method WithOverlap(before: Option<Answer>, raw: Raw, maxChars: nat, overlap: int)
    returns (answer: Answer, ghost suffix: string)
    ensures OverlapOk(before, raw, answer, suffix, maxChars, overlap)
  {
    var text, hasOverlap := raw.text, false;
    suffix := "";
    if !raw.isTable && before.Some? && !before.value.isTable {
      var taken := SentenceSuffix(before.value.text, overlap);
      suffix := taken;
      if taken != "" && |taken| + 1 + |text| <= maxChars {
        text := taken + "\n" + text;
        hasOverlap := true;
      }
    }
    answer := Answer(text, raw.isTable, hasOverlap, raw.hard);
  }

  // The second loop of _emit_answers.
  method AddOverlaps(raws: seq<Raw>, maxChars: nat, overlap: int)
    returns (answers: seq<Answer>, ghost suffixes: seq<string>)
    ensures Overlapped(answers, raws, suffixes, maxChars, overlap)
  {
    answers, suffixes := [], [];
    for i := 0 to |raws|
      invariant |answers| == i && Overlapped(answers, raws[..i], suffixes, maxChars, overlap)
    {
      var answer;
      ghost var suffix;
      answer, suffix := WithOverlap(Before(answers, i), raws[i], maxChars, overlap);
      OneMoreOverlapped(answers, answer, raws[..i], raws[i], suffixes, suffix, maxChars, overlap);
      assert raws[..i + 1] == raws[..i] + [raws[i]];
      answers, suffixes := answers + [answer], suffixes + [suffix];
    }
    assert raws[..|raws|] == raws;
  }

  // ---------------------------------------------------------------- what the answers spell

  lemma RenderInk(group: seq<Item>)
    requires AllWords(group)
    ensures Squeeze(RenderWords(group)) == ItemsInk(group)
  {
    forall i | 0 <= i < |group| ensures Squeeze(RenderParts(group)[i]) == ItemInk(group[i]) {
      JoinedInk(group[i]);
    }
    ConcatInk(RenderParts(group), Inks(group));
  }

  lemma JoinedInk(item: Item)
    requires item.Words?
    ensures Squeeze(Joined(item)) == ItemInk(item)
  {
    SqueezeConcat("\n", item.unit.text);
    SqueezeBlank("\n");
  }

  function Repeated(group: seq<Item>): nat {
    if group != [] && group[0].Piece? then group[0].repeated else 0
  }

  lemma GroupInk(group: seq<Item>)
    requires IsGroup(group)
    ensures Squeeze(Drop(Render(group).text, Repeated(group))) == ItemsInk(group)
  {
    if group[0].Piece? {
      assert group == [group[0]];
      ItemsInkOne(group[0]);
    } else {
      RenderInk(group);
      assert RenderWords(group)[0..] == RenderWords(group);
    }
  }

  // How many characters an answer repeats: its overlap with its line break, or the header of its table.
  function Cut(answer: Answer, suffix: string, group: seq<Item>): nat {
    if answer.hasOverlap then |suffix| + 1 else Repeated(group)
  }

  lemma AnswerInk(before: Option<Answer>, raw: Raw, answer: Answer, suffix: string, group: seq<Item>, maxChars: nat,
                  overlap: int)
    requires IsGroup(group) && raw == Render(group) && OverlapOk(before, raw, answer, suffix, maxChars, overlap)
    ensures Squeeze(Drop(answer.text, Cut(answer, suffix, group))) == ItemsInk(group)
  {
    GroupInk(group);
    if answer.hasOverlap {
      assert Drop(answer.text, |suffix| + 1) == raw.text;
      assert Drop(raw.text, 0) == raw.text;
    }
  }

  // What an answer repeats is the longest run of whole sentences at the end of the answer before it that the overlap
  // allows, or the header that the table piece before it begins with.
  ghost predicate CutOk(before: Option<Answer>, answer: Answer, cut: nat, overlap: int) {
    && (answer.hasOverlap ==>
          && before.Some? && !before.value.isTable && !answer.isTable && 1 < cut <= |answer.text|
          && answer.text[cut - 1] == '\n' && IsOverlap(before.value.text, overlap, answer.text[..cut - 1]))
    && (answer.isTable && cut > 0 ==>
          before.Some? && before.value.isTable && SamePrefix(before.value.text, answer.text, cut))
    && (!answer.isTable && !answer.hasOverlap ==> cut == 0)
  }

  // The answers in order, without what they repeat.
  function Parts(answers: seq<Answer>, cuts: seq<nat>): (parts: seq<string>)
    requires |cuts| == |answers|
    ensures |parts| == |answers|
    ensures forall i :: 0 <= i < |parts| ==> parts[i] == Drop(answers[i].text, cuts[i])
  {
    seq(|answers|, i requires 0 <= i < |answers| => Drop(answers[i].text, cuts[i]))
  }

  function Spelled(answers: seq<Answer>, cuts: seq<nat>): string
    requires |cuts| == |answers|
  {
    Ink(Parts(answers, cuts))
  }

  ghost predicate AnswerOk(answers: seq<Answer>, cuts: seq<nat>, i: nat, maxChars: nat, overlap: int) {
    && i < |answers| && i < |cuts| && |answers[i].text| <= maxChars
    && CutOk(Before(answers, i), answers[i], cuts[i], overlap)
  }

  ghost predicate CutsOk(answers: seq<Answer>, cuts: seq<nat>, maxChars: nat, overlap: int) {
    |cuts| == |answers| && forall i :: 0 <= i < |answers| ==> AnswerOk(answers, cuts, i, maxChars, overlap)
  }

  lemma {:induction false} OverlappedAt(answers: seq<Answer>, raws: seq<Raw>, suffixes: seq<string>, i: nat,
                                        maxChars: nat, overlap: int)
    requires Overlapped(answers, raws, suffixes, maxChars, overlap) && i < |answers|
    ensures OverlapOk(Before(answers, i), raws[i], answers[i], suffixes[i], maxChars, overlap)
  {
    var n := |answers| - 1;
    if i < n {
      OverlappedAt(answers[..n], raws[..n], suffixes[..n], i, maxChars, overlap);
      assert Before(answers[..n], i) == Before(answers, i);
    }
  }

  ghost function Cuts(answers: seq<Answer>, suffixes: seq<string>, groups: seq<seq<Item>>): (cuts: seq<nat>)
    requires |answers| == |suffixes| == |groups|
    ensures |cuts| == |answers| && forall i :: 0 <= i < |cuts| ==> cuts[i] == Cut(answers[i], suffixes[i], groups[i])
  {
    seq(|answers|, i requires 0 <= i < |answers| => Cut(answers[i], suffixes[i], groups[i]))
  }

  lemma CutOkAt(groups: seq<seq<Item>>, raws: seq<Raw>, answers: seq<Answer>, suffixes: seq<string>, i: nat,
                maxChars: nat, overlap: int)
    requires IsPacking(groups, raws, maxChars, overlap) && Overlapped(answers, raws, suffixes, maxChars, overlap)
    requires i < |answers|
    ensures |answers[i].text| <= maxChars
    ensures CutOk(Before(answers, i), answers[i], Cut(answers[i], suffixes[i], groups[i]), overlap)
  {
    OverlappedAt(answers, raws, suffixes, i, maxChars, overlap);
    assert PackedAt(groups, raws, i, maxChars, overlap);
    if i > 0 {
      OverlappedAt(answers, raws, suffixes, i - 1, maxChars, overlap);
      assert PackedAt(groups, raws, i - 1, maxChars, overlap);
    }
    if answers[i].hasOverlap {
      assert answers[i].text[..|suffixes[i]|] == suffixes[i];
    }
    if answers[i].isTable && Repeated(groups[i]) > 0 {
      assert groups[..i][i - 1] == groups[i - 1];
      assert answers[i].text == groups[i][0].text && answers[i - 1].text == groups[i - 1][0].text;
    }
  }

  lemma EmittedCutsOk(groups: seq<seq<Item>>, raws: seq<Raw>, answers: seq<Answer>, suffixes: seq<string>,
                      maxChars: nat, overlap: int)
    requires IsPacking(groups, raws, maxChars, overlap) && Overlapped(answers, raws, suffixes, maxChars, overlap)
    ensures CutsOk(answers, Cuts(answers, suffixes, groups), maxChars, overlap)
  {
    forall i | 0 <= i < |answers| ensures AnswerOk(answers, Cuts(answers, suffixes, groups), i, maxChars, overlap) {
      CutOkAt(groups, raws, answers, suffixes, i, maxChars, overlap);
    }
  }

  lemma EmittedSpell(groups: seq<seq<Item>>, raws: seq<Raw>, answers: seq<Answer>, suffixes: seq<string>,
                     maxChars: nat, overlap: int)
    requires IsPacking(groups, raws, maxChars, overlap) && Overlapped(answers, raws, suffixes, maxChars, overlap)
    ensures Spelled(answers, Cuts(answers, suffixes, groups)) == ItemsInk(Flat(groups))
  {
    var parts := Parts(answers, Cuts(answers, suffixes, groups));
    forall i | 0 <= i < |parts| ensures Squeeze(parts[i]) == ItemsInk(groups[i]) {
      OverlappedAt(answers, raws, suffixes, i, maxChars, overlap);
      assert PackedAt(groups, raws, i, maxChars, overlap);
      AnswerInk(Before(answers, i), raws[i], answers[i], suffixes[i], groups[i], maxChars, overlap);
    }
    assert Squeezes(parts) == GroupInks(groups);
    FlatInk(groups);
  }

  function NonBlank(answers: seq<Answer>): seq<Answer> {
    if answers == [] then []
    else
      NonBlank(answers[..|answers| - 1])
      + if Strip(answers[|answers| - 1].text) == "" then [] else [answers[|answers| - 1]]
  }

  method DropBlank(answers: seq<Answer>) returns (kept: seq<Answer>)
    ensures kept == NonBlank(answers)
  {
    kept := [];
    for i := 0 to |answers|
      invariant kept == NonBlank(answers[..i])
    {
      assert answers[..i + 1][..i] == answers[..i];
      if Strip(answers[i].text) != "" {
        kept := kept + [answers[i]];
      }
    }
    assert answers[..|answers|] == answers;
  }

  // The answers of a section (all, of which the blank ones are then dropped): each within the bound, repeating only
  // what it may, and together spelling the blocks.
  method EmitAnswers(blocks: seq<Block>, maxChars: nat, overlap: int)
    returns (r: Result<seq<Answer>>, ghost all: seq<Answer>, ghost cuts: seq<nat>)
    requires 1 <= maxChars && NoneEmpty(blocks)
    ensures r.Ok? <==> NoErrors(blocks, maxChars)
    ensures r.Err? ==> IsFirstError(blocks, maxChars, r.error)
    ensures r.Ok? ==>
              && r.value == NonBlank(all) && CutsOk(all, cuts, maxChars, overlap)
              && Spelled(all, cuts) == BlocksInk(blocks)
  {
    all, cuts := [], [];
    var raws;
    ghost var groups;
    raws, groups := PackBlocks(blocks, maxChars, overlap);
    if raws.Err? {
      return Err(raws.error), [], [];
    }
    var out;
    ghost var suffixes;
    out, suffixes := AddOverlaps(raws.value, maxChars, overlap);
    EmittedAll(blocks, groups, raws.value, out, suffixes, maxChars, overlap);
    var kept := DropBlank(out);
    return Ok(kept), out, Cuts(out, suffixes, groups);
  }

  lemma EmittedAll(blocks: seq<Block>, groups: seq<seq<Item>>, raws: seq<Raw>, answers: seq<Answer>,
                   suffixes: seq<string>, maxChars: nat, overlap: int)
    requires 1 <= maxChars && NoneEmpty(blocks) && NoErrors(blocks, maxChars)
            && Flat(groups) == BlocksItems(blocks, maxChars)
    requires IsPacking(groups, raws, maxChars, overlap) && Overlapped(answers, raws, suffixes, maxChars, overlap)
    ensures CutsOk(answers, Cuts(answers, suffixes, groups), maxChars, overlap)
    ensures Spelled(answers, Cuts(answers, suffixes, groups)) == BlocksInk(blocks)
  {
    EmittedCutsOk(groups, raws, answers, suffixes, maxChars, overlap);
    EmittedSpell(groups, raws, answers, suffixes, maxChars, overlap);
    BlocksItemsInk(blocks, maxChars);
  }
}
