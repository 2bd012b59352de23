/** The one token ruler of the system (app/services/token_budget.py): the estimator, the
    binary-search truncation, the tool-result cap and the multi-segment summary projection. */
module TokenBudget {

  const PER_MESSAGE_OVERHEAD := 4
  const TRUNCATED_MARK := "\U{2026}[\U{5DF2}\U{622A}\U{65AD}]"
  const ELLIPSIS := "\U{2026}\U{2026}"
  const ELLIPSIS_TOKENS := 1  // the estimate of ELLIPSIS, see EllipsisCostsOne
  const SEPARATOR := "\n\n"

  predicate IsCjk(c: char) {
    var u := c as int;
    0x4E00 <= u <= 0x9FFF || 0x3400 <= u <= 0x4DBF || 0x3000 <= u <= 0x303F || 0xFF00 <= u <= 0xFFEF
  }

  function CountCjk(text: string): (n: nat)
    ensures n <= |text|
  {
    if text == "" then 0
    else CountCjk(text[..|text| - 1]) + if IsCjk(text[|text| - 1]) then 1 else 0
  }

  // One token for a CJK character, a quarter of a token (rounded up in total) for any other.
  function EstimateTokens(text: string): nat {
    CountCjk(text) + (|text| - CountCjk(text) + 3) / 4
  }

  // The estimate before rounding, in quarters of a token: additive, which the estimate is not.
  function Quarters(text: string): nat {
    3 * CountCjk(text) + |text|
  }

  lemma EstimateIsQuartersRoundedUp(text: string)
    ensures EstimateTokens(text) == (Quarters(text) + 3) / 4
  {
  }

  lemma {:induction false} CountCjkConcat(a: string, b: string)
    ensures CountCjk(a + b) == CountCjk(a) + CountCjk(b)
  {
    if b == "" {
      assert a + b == a;
    } else {
      CountCjkConcat(a, b[..|b| - 1]);
      assert (a + b)[..|a + b| - 1] == a + b[..|b| - 1];
    }
  }

  lemma QuartersConcat(a: string, b: string)
    ensures Quarters(a + b) == Quarters(a) + Quarters(b)
  {
    CountCjkConcat(a, b);
  }

  lemma EstimateOfConcat(a: string, b: string)
    ensures EstimateTokens(a + b) <= EstimateTokens(a) + EstimateTokens(b)
    ensures EstimateTokens(a) <= EstimateTokens(a + b)
    ensures EstimateTokens(b) <= EstimateTokens(a + b)
  {
    QuartersConcat(a, b);
  }

  lemma EstimateOfPrefix(text: string, i: nat, j: nat)
    requires i <= j <= |text|
    ensures EstimateTokens(text[..i]) <= EstimateTokens(text[..j])
  {
    assert text[..j] == text[..i] + text[i..j];
    EstimateOfConcat(text[..i], text[i..j]);
  }

  // ---------------------------------------------------------------- truncate_to_tokens

  // The longest prefix of text of at most n characters whose estimate fits the budget.
  function LongestPrefix(text: string, n: nat, budget: int): string
    requires n <= |text|
  {
    if n == 0 || EstimateTokens(text[..n]) <= budget then text[..n] else LongestPrefix(text, n - 1, budget)
  }

  function Truncate(text: string, budget: int): string {
    LongestPrefix(text, |text|, budget)
  }

  lemma {:induction false} LongestPrefixIsLongest(text: string, n: nat, budget: int)
    requires n <= |text| && 0 <= budget
    ensures var r := LongestPrefix(text, n, budget);
            && |r| <= n && r == text[..|r|]
            && EstimateTokens(r) <= budget
            && forall k :: |r| < k <= n ==> EstimateTokens(text[..k]) > budget
  {
    if n == 0 || EstimateTokens(text[..n]) <= budget {
    } else {
      LongestPrefixIsLongest(text, n - 1, budget);
    }
  }

  lemma TruncateIsLongestPrefix(text: string, budget: int)
    requires 0 <= budget
    ensures var r := Truncate(text, budget);
            && r <= text
            && EstimateTokens(r) <= budget
            && forall k :: |r| < k <= |text| ==> EstimateTokens(text[..k]) > budget
  {
    LongestPrefixIsLongest(text, |text|, budget);
  }

  lemma LongestPrefixIsUnique(text: string, budget: int, lo: nat)
    requires 0 <= budget && lo <= |text| && EstimateTokens(text[..lo]) <= budget
    requires forall k :: lo < k <= |text| ==> EstimateTokens(text[..k]) > budget
    ensures Truncate(text, budget) == text[..lo]
  {
    TruncateIsLongestPrefix(text, budget);
    var r := Truncate(text, budget);
    assert text[..|r|] == r;
  }

  method TruncateToTokens(text: string, budget: int) returns (r: string)
    ensures r <= text
    ensures budget <= 0 ==> r == ""
    ensures 0 <= budget ==> EstimateTokens(r) <= budget
    ensures 0 < budget ==> forall k :: |r| < k <= |text| ==> EstimateTokens(text[..k]) > budget
    ensures 0 < budget ==> r == Truncate(text, budget)
  {
    if budget <= 0 {
      return "";
    }
    if EstimateTokens(text) <= budget {
      assert text[..|text|] == text;
      return text;
    }
    var lo, hi := 0, |text|;
    assert text[..0] == "";
    while lo < hi
      invariant 0 <= lo <= hi <= |text|
      invariant EstimateTokens(text[..lo]) <= budget
      invariant forall k :: hi < k <= |text| ==> EstimateTokens(text[..k]) > budget
    {
      var mid := (lo + hi + 1) / 2;
      if EstimateTokens(text[..mid]) <= budget {
        lo := mid;
      } else {
        forall k | mid <= k <= |text| ensures EstimateTokens(text[..k]) > budget {
          EstimateOfPrefix(text, mid, k);
        }
        hi := mid - 1;
      }
    }
    LongestPrefixIsUnique(text, budget, lo);
    return text[..lo];
  }

  // ---------------------------------------------------------------- truncate_tool_result

  lemma MarkCostsFour()
    ensures EstimateTokens(TRUNCATED_MARK) == 4
  {
    var m := TRUNCATED_MARK;
    assert |m| == 6;
    assert m[..5][..4] == m[..4] && m[..4][..3] == m[..3] && m[..3][..2] == m[..2] && m[..2][..1] == m[..1]
            && m[..1][..0] == "";
    assert IsCjk(m[2]) && IsCjk(m[3]) && IsCjk(m[4]) && !IsCjk(m[5]) && !IsCjk(m[1]) && !IsCjk(m[0]);
    assert CountCjk(m[..1]) == 0;
    assert CountCjk(m[..2]) == 0;
    assert CountCjk(m[..3]) == 1;
    assert CountCjk(m[..4]) == 2;
    assert CountCjk(m[..5]) == 3;
  }

  function Capped(text: string, mark: string, maxTokens: int): string {
    if EstimateTokens(text) <= maxTokens then text
    else (if maxTokens <= EstimateTokens(mark) then "" else Truncate(text, maxTokens - EstimateTokens(mark))) + mark
  }

  function ToolResult(text: string, maxTokens: int): string {
    Capped(text, TRUNCATED_MARK, maxTokens)
  }

  method TruncateToolResult(text: string, maxTokens: int) returns (r: string)
    ensures r == ToolResult(text, maxTokens)
  {
    if EstimateTokens(text) <= maxTokens {
      return text;
    }
    var head := TruncateToTokens(text, maxTokens - EstimateTokens(TRUNCATED_MARK));
    return head + TRUNCATED_MARK;
  }

  lemma CappedFitsIff(text: string, mark: string, maxTokens: int)
    ensures EstimateTokens(Capped(text, mark, maxTokens)) <= maxTokens
            <==> EstimateTokens(text) <= maxTokens || EstimateTokens(mark) <= maxTokens
    ensures Capped(Capped(text, mark, maxTokens), mark, maxTokens) == Capped(text, mark, maxTokens)
  {
    assert "" + mark == mark;
    if maxTokens > EstimateTokens(mark) {
      TruncateIsLongestPrefix(text, maxTokens - EstimateTokens(mark));
      EstimateOfConcat(Truncate(text, maxTokens - EstimateTokens(mark)), mark);
    }
  }

  // The cap holds exactly when the text already fits or there is room for the mark itself.
  lemma ToolResultFitsIff(text: string, maxTokens: int)
    ensures EstimateTokens(ToolResult(text, maxTokens)) <= maxTokens
            <==> EstimateTokens(text) <= maxTokens || 4 <= maxTokens
  {
    MarkCostsFour();
    CappedFitsIff(text, TRUNCATED_MARK, maxTokens);
  }

  // A result that fits is left as it is; of any other the longest prefix is kept that leaves room for the mark, which
  // costs four tokens.
  lemma ToolResultKeepsLongest(text: string, maxTokens: int)
    ensures EstimateTokens(text) <= maxTokens ==> ToolResult(text, maxTokens) == text
    ensures EstimateTokens(text) > maxTokens ==>
              exists n: nat :: n <= |text| && ToolResult(text, maxTokens) == text[..n] + TRUNCATED_MARK
                               && (n > 0 ==> EstimateTokens(text[..n]) <= maxTokens - 4)
                               && forall k :: n < k <= |text| ==> EstimateTokens(text[..k]) > maxTokens - 4
  {
    MarkCostsFour();
    if EstimateTokens(text) > maxTokens {
      if maxTokens <= 4 {
        assert text[..0] == "" && "" + TRUNCATED_MARK == TRUNCATED_MARK;
        forall k | 0 < k <= |text| ensures EstimateTokens(text[..k]) > maxTokens - 4 {
        }
      } else {
        TruncateIsLongestPrefix(text, maxTokens - 4);
        var n := |Truncate(text, maxTokens - 4)|;
        assert text[..n] == Truncate(text, maxTokens - 4);
      }
    }
  }

  // The executor caps a result twice (when formatting and when finishing); the second cap changes
  // nothing, for every limit.
  lemma ToolResultIsIdempotent(text: string, maxTokens: int)
    ensures ToolResult(ToolResult(text, maxTokens), maxTokens) == ToolResult(text, maxTokens)
  {
    CappedFitsIff(text, TRUNCATED_MARK, maxTokens);
  }

  // ---------------------------------------------------------------- build_summary_projection

  function JoinParts(parts: seq<string>): string {
    if |parts| == 0 then ""
    else if |parts| == 1 then parts[0]
    else JoinParts(parts[..|parts| - 1]) + SEPARATOR + parts[|parts| - 1]
  }

  function Reverse(s: string): (r: string)
    ensures |r| == |s|
    ensures forall i :: 0 <= i < |s| ==> r[i] == s[|s| - 1 - i]
  {
    seq(|s|, i requires 0 <= i < |s| => s[|s| - 1 - i])
  }

  function Body(per: nat): nat {
    if per <= ELLIPSIS_TOKENS then 0 else per - ELLIPSIS_TOKENS
  }

  function HeadWithin(segment: string, body: nat): string {
    if body * 2 / 3 <= 0 then "" else Truncate(segment, body * 2 / 3)
  }

  function TailWithin(segment: string, rest: int): string {
    if rest <= 0 then "" else Reverse(Truncate(Reverse(segment), rest))
  }

  function Head(segment: string, per: nat): string {
    HeadWithin(segment, Body(per))
  }

  function Tail(segment: string, per: nat): string {
    TailWithin(segment, Body(per) - EstimateTokens(Head(segment, per)))
  }

  // What one segment becomes under a quota of per tokens.
  function Piece(segment: string, per: nat): string {
    if EstimateTokens(segment) <= per then segment else Head(segment, per) + ELLIPSIS + Tail(segment, per)
  }

  function Pieces(segments: seq<string>, per: nat): (r: seq<string>)
    ensures |r| == |segments|
    ensures forall i :: 0 <= i < |segments| ==> r[i] == Piece(segments[i], per)
  {
    seq(|segments|, i requires 0 <= i < |segments| => Piece(segments[i], per))
  }

  function Projection(segments: seq<string>, budget: int): string {
    if |segments| == 0 || budget <= 0 then ""
    else if EstimateTokens(JoinParts(segments)) <= budget then JoinParts(segments)
    else JoinParts(Pieces(segments, budget / |segments|))
  }

  method HeadOf(segment: string, body: nat) returns (r: string)
    ensures r == HeadWithin(segment, body)
  {
    r := TruncateToTokens(segment, body * 2 / 3);
  }

  // The tail of a shortened segment: the text is truncated from its end.
  method TailOf(segment: string, rest: int) returns (r: string)
    ensures r == TailWithin(segment, rest)
  {
    r := "";
    if rest > 0 {
      r := TruncateToTokens(Reverse(segment), rest);
      r := Reverse(r);
    }
  }

  // The loop body of the projection for a segment over its quota: where it is cut.
  method HeadAndTailOf(segment: string, per: nat) returns (head: string, tail: string)
    ensures head == Head(segment, per) && tail == Tail(segment, per)
  {
    var body := Body(per);
    head := HeadOf(segment, body);
    tail := TailOf(segment, body - EstimateTokens(head));
  }

  method Share(segment: string, per: nat) returns (r: string)
    ensures r == Piece(segment, per)
  {
    if EstimateTokens(segment) <= per {
      return segment;
    }
    var head, tail := HeadAndTailOf(segment, per);
    return head + ELLIPSIS + tail;
  }

  // Every segment gets the same quota.
  method Shares(segments: seq<string>, per: nat) returns (out: seq<string>)
    ensures out == Pieces(segments, per)
  {
    out := [];
    for i := 0 to |segments|
      invariant |out| == i
      invariant forall k :: 0 <= k < i ==> out[k] == Piece(segments[k], per)
    {
      var piece := Share(segments[i], per);
      out := out + [piece];
    }
  }

  method BuildSummaryProjection(segments: seq<string>, budget: int) returns (r: string)
    ensures r == Projection(segments, budget)
  {
    if |segments| == 0 || budget <= 0 {
      return "";
    }
    var full := JoinParts(segments);
    if EstimateTokens(full) <= budget {
      return full;
    }
    var out := Shares(segments, budget / |segments|);
    return JoinParts(out);
  }

  lemma EllipsisCostsOne()
    ensures EstimateTokens(ELLIPSIS) == ELLIPSIS_TOKENS
  {
    var e := ELLIPSIS;
    assert |e| == 2 && !IsCjk(e[0]) && !IsCjk(e[1]);
    assert e[..1][..0] == "";
    assert CountCjk(e[..1]) == 0;
  }

  lemma {:induction false} CountCjkReverse(s: string)
    ensures CountCjk(Reverse(s)) == CountCjk(s)
  {
    if s != "" {
      var init, last := s[..|s| - 1], [s[|s| - 1]];
      CountCjkReverse(init);
      assert Reverse(s) == last + Reverse(init);
      CountCjkConcat(last, Reverse(init));
      assert s == init + last;
      CountCjkConcat(init, last);
    }
  }

  // Head and tail of a shortened segment: a prefix and a suffix of it, together within the quota
  // less the mark.
  lemma HeadAndTail(segment: string, per: nat)
    ensures var h, t := Head(segment, per), Tail(segment, per);
            && h <= segment
            && |t| <= |segment| && t == segment[|segment| - |t|..]
            && EstimateTokens(h) + EstimateTokens(t) <= Body(per)
  {
    var h, t := Head(segment, per), Tail(segment, per);
    if Body(per) * 2 / 3 > 0 {
      TruncateIsLongestPrefix(segment, Body(per) * 2 / 3);
    }
    var rest := Body(per) - EstimateTokens(h);
    if rest > 0 {
      var u := Truncate(Reverse(segment), rest);
      TruncateIsLongestPrefix(Reverse(segment), rest);
      CountCjkReverse(u);
      assert t == segment[|segment| - |t|..];
    }
  }

  // A shortened segment keeps a head and a tail that never overlap.
  lemma ShortenedPartsDoNotOverlap(segment: string, per: nat)
    requires EstimateTokens(segment) > per
    ensures |Head(segment, per)| + |Tail(segment, per)| <= |segment|
  {
    EllipsisCostsOne();
    HeadAndTail(segment, per);
    var h, t := Head(segment, per), Tail(segment, per);
    if |h| + |t| > |segment| {
      assert segment == h + segment[|h|..];
      var u := t[|t| - (|segment| - |h|)..];
      assert u == segment[|h|..];
      assert t == t[..|t| - |u|] + u;
      EstimateOfConcat(t[..|t| - |u|], u);
      EstimateOfConcat(h, u);
    }
  }

  // What is kept of a shortened segment is as long as its quota allows. The ellipsis takes one token, and two thirds of
  // the rest are for the head: it is the longest prefix within them.
  lemma ShortenedHeadIsLongest(segment: string, per: nat)
    requires 1 <= per
    ensures var h := Head(segment, per);
            && h <= segment && EstimateTokens(h) <= (per - 1) * 2 / 3
            && forall n :: |h| < n <= |segment| ==> EstimateTokens(segment[..n]) > (per - 1) * 2 / 3
  {
    assert Body(per) == per - 1;
    if (per - 1) * 2 / 3 > 0 {
      TruncateIsLongestPrefix(segment, (per - 1) * 2 / 3);
    }
  }

  // The tail takes what the head leaves: no longer suffix would fit.
  lemma ShortenedTailIsLongest(segment: string, per: nat, k: nat)
    requires 1 <= per && k < |segment| - |Tail(segment, per)|
    ensures EstimateTokens(segment[k..]) > per - 1 - EstimateTokens(Head(segment, per))
  {
    LongerTailCosts(segment, Body(per) - EstimateTokens(Head(segment, per)), k);
  }

  lemma EstimateOfReverse(s: string)
    ensures EstimateTokens(Reverse(s)) == EstimateTokens(s)
  {
    CountCjkReverse(s);
  }

  lemma LongerTailCosts(segment: string, rest: int, k: nat)
    requires k < |segment| - |TailWithin(segment, rest)|
    ensures EstimateTokens(segment[k..]) > rest
  {
    if rest > 0 {
      var u := segment[k..];
      TruncateIsLongestPrefix(Reverse(segment), rest);
      assert Reverse(segment)[..|u|] == Reverse(u);
      EstimateOfReverse(u);
    }
  }

  lemma PieceFitsQuota(segment: string, per: nat)
    requires 1 <= per
    ensures EstimateTokens(Piece(segment, per)) <= per
  {
    if EstimateTokens(segment) > per {
      EllipsisCostsOne();
      HeadAndTail(segment, per);
      var h, t := Head(segment, per), Tail(segment, per);
      EstimateOfConcat(h, ELLIPSIS);
      EstimateOfConcat(h + ELLIPSIS, t);
    }
  }

  // Every segment survives the projection, in order: whole, or as a disjoint head and tail around
  // the ellipsis.
  ghost predicate Abridges(part: string, segment: string) {
    part == segment
    || exists h: nat, t: nat {:trigger segment[..h], segment[t..]} ::
         h <= t <= |segment| && part == segment[..h] + ELLIPSIS + segment[t..]
  }

  lemma PieceAbridges(segment: string, per: nat)
    ensures Abridges(Piece(segment, per), segment)
  {
    if EstimateTokens(segment) > per {
      HeadAndTail(segment, per);
      ShortenedPartsDoNotOverlap(segment, per);
      var h, t := |Head(segment, per)|, |segment| - |Tail(segment, per)|;
      assert segment[..h] == Head(segment, per) && segment[t..] == Tail(segment, per);
    }
  }

  ghost predicate AbridgesAll(parts: seq<string>, segments: seq<string>) {
    |parts| == |segments| && forall i :: 0 <= i < |parts| ==> Abridges(parts[i], segments[i])
  }

  // What is within the quota is not touched.
  ghost predicate KeepsShort(parts: seq<string>, segments: seq<string>, per: nat) {
    |parts| == |segments|
    && forall i :: 0 <= i < |parts| && EstimateTokens(segments[i]) <= per ==> parts[i] == segments[i]
  }

  lemma PiecesKeepSegments(segments: seq<string>, per: nat)
    ensures AbridgesAll(Pieces(segments, per), segments) && KeepsShort(Pieces(segments, per), segments, per)
  {
    forall i | 0 <= i < |segments| ensures Abridges(Piece(segments[i], per), segments[i]) {
      PieceAbridges(segments[i], per);
    }
  }

  ghost predicate IsAbridgement(text: string, segments: seq<string>, per: nat) {
    exists parts: seq<string> ::
      text == JoinParts(parts) && AbridgesAll(parts, segments) && KeepsShort(parts, segments, per)
  }

  lemma WholeIsAbridgement(segments: seq<string>, per: nat)
    ensures IsAbridgement(JoinParts(segments), segments, per)
  {
    assert AbridgesAll(segments, segments) && KeepsShort(segments, segments, per);
  }

  lemma ProjectionKeepsEverySegment(segments: seq<string>, budget: int, per: nat)
    requires 0 < budget && segments != [] && per == budget / |segments|
    ensures IsAbridgement(Projection(segments, budget), segments, per)
    ensures EstimateTokens(JoinParts(segments)) <= budget ==> Projection(segments, budget) == JoinParts(segments)
  {
    if EstimateTokens(JoinParts(segments)) <= budget {
      WholeIsAbridgement(segments, per);
    } else {
      PiecesKeepSegments(segments, per);
      assert Projection(segments, budget) == JoinParts(Pieces(segments, per));
    }
  }

  // Joining keeps the order, with one separator between neighbours.
  lemma {:induction false} JoinOfConcat(a: seq<string>, b: seq<string>)
    requires a != [] && b != []
    ensures JoinParts(a + b) == JoinParts(a) + SEPARATOR + JoinParts(b)
  {
    var n := |b| - 1;
    assert (a + b)[..|a + b| - 1] == a + b[..n];
    if n == 0 {
      assert a + b[..n] == a;
    } else {
      JoinOfConcat(a, b[..n]);
    }
  }

  lemma SeparatorQuarters()
    ensures Quarters(SEPARATOR) == 2
  {
    var e := SEPARATOR;
    assert |e| == 2 && !IsCjk(e[0]) && !IsCjk(e[1]);
    assert e[..1][..0] == "";
    assert CountCjk(e[..1]) == 0;
  }

  // Separators are not charged to any segment: n parts of at most per tokens each cost, joined, at
  // most n * per tokens and half a token for each of the n - 1 separators.
  lemma {:induction false} JoinQuarters(parts: seq<string>, per: nat)
    requires |parts| >= 1
    requires forall i :: 0 <= i < |parts| ==> EstimateTokens(parts[i]) <= per
    ensures Quarters(JoinParts(parts)) <= 4 * (|parts| * per) + 2 * (|parts| - 1)
  {
    var n := |parts|;
    var last := parts[n - 1];
    EstimateIsQuartersRoundedUp(last);
    if n == 1 {
      assert JoinParts(parts) == last;
    } else {
      var init := parts[..n - 1];
      JoinQuarters(init, per);
      SeparatorQuarters();
      QuartersConcat(JoinParts(init), SEPARATOR);
      QuartersConcat(JoinParts(init) + SEPARATOR, last);
      OneMoreShare(n, per);
    }
  }

  lemma OneMoreShare(n: nat, per: nat)
    requires 1 <= n
    ensures (n - 1) * per + per == n * per
  {
  }

  lemma JoinEstimate(parts: seq<string>, per: nat, total: int)
    requires |parts| >= 1 && total == |parts| * per
    requires forall i :: 0 <= i < |parts| ==> EstimateTokens(parts[i]) <= per
    ensures EstimateTokens(JoinParts(parts)) <= total + |parts| / 2
  {
    JoinQuarters(parts, per);
    EstimateIsQuartersRoundedUp(JoinParts(parts));
    RoundUp(Quarters(JoinParts(parts)), |parts|, total);
  }

  lemma PiecesEstimate(segments: seq<string>, per: nat)
    requires 1 <= |segments| && 1 <= per
    ensures EstimateTokens(JoinParts(Pieces(segments, per))) <= |segments| * per + |segments| / 2
  {
    var parts := Pieces(segments, per);
    forall i | 0 <= i < |parts| ensures EstimateTokens(parts[i]) <= per {
      PieceFitsQuota(segments[i], per);
    }
    JoinEstimate(parts, per, |segments| * per);
  }

  lemma RoundUp(quarters: nat, n: nat, total: int)
    requires 1 <= n && quarters <= 4 * total + 2 * (n - 1)
    ensures (quarters + 3) / 4 <= total + n / 2
  {
  }

  lemma EqualShares(budget: int, n: int)
    requires 1 <= n <= budget
    ensures n * (budget / n) == budget - budget % n && budget / n >= 1
  {
  }

  lemma ShortenedProjection(segments: seq<string>, budget: int)
    requires 1 <= |segments| <= budget
    ensures EstimateTokens(Projection(segments, budget)) <= budget
            || EstimateTokens(Projection(segments, budget)) <= budget - budget % |segments| + |segments| / 2
  {
    EqualShares(budget, |segments|);
    PiecesEstimate(segments, budget / |segments|);
  }

  // The true bound of the projection: the budget, and half a token per separator.
  lemma ProjectionBound(segments: seq<string>, budget: int)
    requires 1 <= |segments| <= budget
    ensures EstimateTokens(Projection(segments, budget)) <= budget + |segments| / 2
  {
    ShortenedProjection(segments, budget);
  }

  // n segments of equal text.
  function Copies(w: string, n: nat): (r: seq<string>)
    ensures |r| == n && forall i :: 0 <= i < n ==> r[i] == w
  {
    seq(n, _ => w)
  }

  function Letters(n: nat): (w: string)
    ensures |w| == n && forall i :: 0 <= i < n ==> w[i] == 'a'
  {
    seq(n, _ => 'a')
  }

  lemma {:induction false} LettersCost(n: nat)
    ensures Quarters(Letters(n)) == n
  {
    if n > 0 {
      LettersCost(n - 1);
      assert Letters(n)[..n - 1] == Letters(n - 1);
      assert !IsCjk('a');
    }
  }

  lemma {:induction false} JoinOfCopies(w: string, n: nat)
    requires 1 <= n
    ensures Quarters(JoinParts(Copies(w, n))) == n * Quarters(w) + 2 * (n - 1)
  {
    if n == 1 {
      assert JoinParts(Copies(w, 1)) == w;
    } else {
      JoinOfCopies(w, n - 1);
      assert Copies(w, n)[..n - 1] == Copies(w, n - 1);
      SeparatorQuarters();
      QuartersConcat(JoinParts(Copies(w, n - 1)), SEPARATOR);
      QuartersConcat(JoinParts(Copies(w, n - 1)) + SEPARATOR, w);
      OneMoreShare(n, Quarters(w));
    }
  }

  // n texts of 4 * per letters cost, joined, exactly what the bound allows.
  lemma JoinOfLetters(n: nat, per: nat, total: nat)
    requires 1 <= n && total == n * per
    ensures EstimateTokens(Letters(4 * per)) == per
    ensures EstimateTokens(JoinParts(Copies(Letters(4 * per), n))) == total + n / 2
  {
    LettersCost(4 * per);
    EstimateIsQuartersRoundedUp(Letters(4 * per));
    FourTimes(n, per);
    CopiesEstimate(Letters(4 * per), n, 4 * per, total);
  }

  lemma FourTimes(n: nat, per: nat)
    ensures n * (4 * per) == 4 * (n * per)
  {
  }

  lemma CopiesEstimate(w: string, n: nat, quarters: nat, total: nat)
    requires 1 <= n && Quarters(w) == quarters && n * quarters == 4 * total
    ensures EstimateTokens(JoinParts(Copies(w, n))) == total + n / 2
  {
    JoinOfCopies(w, n);
    EstimateIsQuartersRoundedUp(JoinParts(Copies(w, n)));
  }

  // Their equal shares are the texts themselves, so the projection cannot shorten them.
  lemma ProjectionOfLetters(n: nat, per: nat, budget: nat, total: nat)
    requires 1 <= n && 1 <= budget && 1 <= per == budget / n
    requires total == n * per && budget <= total + n / 2
    ensures EstimateTokens(Projection(Copies(Letters(4 * per), n), budget)) == total + n / 2
  {
    var segments := Copies(Letters(4 * per), n);
    JoinOfLetters(n, per, total);
    assert Pieces(segments, per) == segments;
    NothingToShorten(segments, budget, per);
  }

  lemma NothingToShorten(segments: seq<string>, budget: int, per: nat)
    requires segments != [] && 1 <= budget && per == budget / |segments| && Pieces(segments, per) == segments
    ensures Projection(segments, budget) == JoinParts(segments)
  {
  }

  // The bound is attained for every number of segments and every quota; from two segments on, the projection can
  // therefore exceed its budget.
  lemma ProjectionBoundIsTight(n: nat, per: nat)
    requires 1 <= n && 1 <= per
    ensures EstimateTokens(Projection(Copies(Letters(4 * per), n), n * per)) == n * per + n / 2
  {
    SharesOfProduct(n, per);
    ProjectionOfLetters(n, per, n * per, n * per);
  }

  lemma SharesOfProduct(n: nat, per: nat)
    requires 1 <= n && 1 <= per
    ensures 1 <= n * per && n * per / n == per
  {
    var total := n * per;
    assert total == n * (total / n) + total % n;
    QuotientIsUnique(n, per, total / n, total % n);
    OneMoreShare(per, n);
  }

  lemma QuotientIsUnique(n: nat, per: int, quotient: int, rest: int)
    requires n * per == n * quotient + rest && 0 <= rest < n
    ensures per == quotient
  {
    NextMultiple(n, per - quotient);
    assert n * (per - quotient) == rest;
  }

  lemma NextMultiple(n: nat, d: int)
    ensures d >= 1 ==> n * d >= n
    ensures d <= -1 ==> n * d + n <= 0
  {
    if d >= 1 {
      assert n * (d - 1) >= 0;
    } else if d <= -1 {
      assert n * (-d - 1) >= 0;
    }
  }

  // A budget with half a spare token per separator after the equal split is never exceeded.
  lemma ProjectionFitsWithSlack(segments: seq<string>, budget: int)
    requires 1 <= |segments| <= budget
    requires budget % |segments| >= |segments| / 2
    ensures EstimateTokens(Projection(segments, budget)) <= budget
  {
    ShortenedProjection(segments, budget);
  }

  // Without that slack some segments exceed it.
  lemma WithoutSlackItOverflows(n: nat, budget: nat)
    requires 1 <= n <= budget && budget % n < n / 2
    ensures EstimateTokens(Projection(Copies(Letters(4 * (budget / n)), n), budget)) > budget
  {
    EqualShares(budget, n);
    ProjectionOfLetters(n, budget / n, budget, budget - budget % n);
  }

  // With less than one token per segment every text becomes an ellipsis, and these alone exceed the budget.
  lemma EllipsesOverflow(n: nat, budget: nat)
    requires 1 <= budget < n
    ensures EstimateTokens(Projection(Copies(Letters(4), n), budget)) > budget
  {
    var segments := Copies(Letters(4), n);
    JoinOfLetters(n, 1, n);
    EllipsesCost(n);
    assert Pieces(segments, 0) == Copies(ELLIPSIS, n);
    NoShare(n, budget);
    assert Projection(segments, budget) == JoinParts(Pieces(segments, 0));
  }

  lemma NoShare(n: nat, budget: nat)
    requires budget < n
    ensures budget / n == 0
  {
  }

  lemma EllipsesCost(n: nat)
    requires 1 <= n
    ensures EstimateTokens(JoinParts(Copies(ELLIPSIS, n))) == n
    ensures Piece(Letters(4), 0) == ELLIPSIS
  {
    JoinOfLetters(1, 1, 1);
    NothingAround(Letters(4));
    EllipsisQuarters();
    JoinOfCopies(ELLIPSIS, n);
    EstimateIsQuartersRoundedUp(JoinParts(Copies(ELLIPSIS, n)));
  }

  // A quota that the ellipsis alone uses up leaves no head and no tail.
  lemma NothingAround(segment: string)
    ensures Head(segment, 0) + ELLIPSIS + Tail(segment, 0) == ELLIPSIS
  {
    assert Body(0) == 0 && EstimateTokens("") == 0;
    assert Head(segment, 0) == "" && Tail(segment, 0) == "";
  }

  lemma EllipsisQuarters()
    ensures Quarters(ELLIPSIS) == 2
  {
    var e := ELLIPSIS;
    assert |e| == 2 && !IsCjk(e[0]) && !IsCjk(e[1]);
    assert e[..1][..0] == "";
    assert CountCjk(e[..1]) == 0;
  }

  ghost predicate NeverExceeds(n: nat, budget: int) {
    forall segments: seq<string> :: |segments| == n ==> EstimateTokens(Projection(segments, budget)) <= budget
  }

  // Exactly when the projection keeps its budget whatever the segments say: the budget has a token for each of them,
  // and what the equal split leaves over pays for the separators.
  lemma ProjectionKeepsBudgetIff(n: nat, budget: int)
    requires 1 <= n && 1 <= budget
    ensures NeverExceeds(n, budget) <==> n <= budget && budget % n >= n / 2
  {
    if n <= budget && budget % n >= n / 2 {
      forall segments: seq<string> | |segments| == n ensures EstimateTokens(Projection(segments, budget)) <= budget {
        ProjectionFitsWithSlack(segments, budget);
      }
    } else if n <= budget {
      WithoutSlackItOverflows(n, budget);
      assert |Copies(Letters(4 * (budget / n)), n)| == n;
    } else {
      EllipsesOverflow(n, budget);
      assert |Copies(Letters(4), n)| == n;
    }
  }
}
