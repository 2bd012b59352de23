/** The three-layer view of a conversation and the cut that moves layer 1 (app/services/context_layers.py). */
module ContextLayers {
  import opened Basics
  import Messages
  import Ledger
  import TokenBudget

  datatype Kind = Human | Assistant | ToolResult

  // calls is the serialised tool-call list ("" when there is none); stamp is the ledger id, if any.
  datatype Msg = Msg(kind: Kind, content: string, calls: string, callId: string, stamp: Option<int>)

  function EstimateMessage(m: Msg): nat {
    TokenBudget.EstimateTokens(m.content) + TokenBudget.PER_MESSAGE_OVERHEAD
    + if m.calls != "" then TokenBudget.EstimateTokens(m.calls) else 0
  }

  // A message costs its text and four tokens, and its calls on top.
  lemma MessageCost(m: Msg)
    ensures EstimateMessage(m.(calls := "")) == TokenBudget.EstimateTokens(m.content) + 4
    ensures EstimateMessage(m)
            == EstimateMessage(m.(calls := "")) + if m.calls == "" then 0 else TokenBudget.EstimateTokens(m.calls)
  {
  }

  function Cost(ms: seq<Msg>): nat {
    if ms == [] then 0 else EstimateMessage(ms[0]) + Cost(ms[1..])
  }

  // ---------------------------------------------------------------- effective ids

  // A message without a stamp inherits the last stamp before it.
  function EffectiveId(ms: seq<Msg>, i: nat): int
    requires i < |ms|
  {
    if ms[i].stamp.Some? then ms[i].stamp.value
    else if i == 0 then 0
    else EffectiveId(ms, i - 1)
  }

  method EffectiveIds(ms: seq<Msg>) returns (ids: seq<int>)
    ensures |ids| == |ms| && forall i :: 0 <= i < |ms| ==> ids[i] == EffectiveId(ms, i)
  {
    ids := [];
    var cur := 0;
    for i := 0 to |ms|
      invariant |ids| == i && forall k :: 0 <= k < i ==> ids[k] == EffectiveId(ms, k)
      invariant cur == if i == 0 then 0 else EffectiveId(ms, i - 1)
    {
      if ms[i].stamp.Some? {
        cur := ms[i].stamp.value;
      }
      ids := ids + [cur];
    }
  }

  // The messages whose effective id lies above lo and not above hi.
  function Between(ms: seq<Msg>, lo: int, hi: Option<int>): seq<Msg> {
    if ms == [] then []
    else
      var n := |ms| - 1;
      Between(ms[..n], lo, hi)
      + if lo < EffectiveId(ms, n) && (hi.Some? ==> EffectiveId(ms, n) <= hi.value) then [ms[n]] else []
  }

  function Above(ms: seq<Msg>, lo: int): seq<Msg> {
    Between(ms, lo, None)
  }

  // The histories the graph keeps: everything but tool results is stamped, each stamp exceeds all before it,
  // and a tool result never comes first.
  ghost predicate WellStamped(ms: seq<Msg>) {
    ms == []
    || var n := |ms| - 1;
       && WellStamped(ms[..n])
       && (ms[n].stamp.None? <==> ms[n].kind == ToolResult)
       && (ms[n].stamp.None? ==> n > 0)
       && (ms[n].stamp.Some? ==> (if n > 0 then EffectiveId(ms, n - 1) else 0) < ms[n].stamp.value)
  }

  lemma {:induction false} EffectiveIdOfPrefix(ms: seq<Msg>, n: nat, i: nat)
    requires i < n <= |ms|
    ensures EffectiveId(ms[..n], i) == EffectiveId(ms, i)
  {
    if ms[i].stamp.None? && i > 0 {
      EffectiveIdOfPrefix(ms, n, i - 1);
    }
  }

  lemma {:induction false} WellStampedAt(ms: seq<Msg>, i: nat)
    requires WellStamped(ms) && i < |ms|
    ensures ms[i].stamp.None? <==> ms[i].kind == ToolResult
    ensures ms[i].stamp.None? ==> i > 0
    ensures ms[i].stamp.Some? ==> (if i > 0 then EffectiveId(ms, i - 1) else 0) < ms[i].stamp.value
  {
    var n := |ms| - 1;
    if i < n {
      WellStampedAt(ms[..n], i);
      if i > 0 {
        EffectiveIdOfPrefix(ms, n, i - 1);
      }
    }
  }

  lemma {:induction false} EffectiveIdSource(ms: seq<Msg>, i: nat) returns (k: nat)
    requires WellStamped(ms) && i < |ms|
    ensures k <= i && ms[k].stamp == Some(EffectiveId(ms, i)) && 0 < EffectiveId(ms, i)
  {
    WellStampedAt(ms, i);
    if ms[i].stamp.Some? {
      k := i;
      if i > 0 {
        var j := EffectiveIdSource(ms, i - 1);
      }
    } else {
      k := EffectiveIdSource(ms, i - 1);
    }
  }

  lemma {:induction false} EffectiveIdsGrow(ms: seq<Msg>, i: nat, j: nat)
    requires WellStamped(ms) && i <= j < |ms|
    ensures EffectiveId(ms, i) <= EffectiveId(ms, j)
    ensures i < j && ms[j].stamp.Some? ==> EffectiveId(ms, i) < EffectiveId(ms, j)
  {
    if i < j {
      EffectiveIdsGrow(ms, i, j - 1);
      WellStampedAt(ms, j);
    }
  }

  ghost predicate Stamps(ms: seq<Msg>, id: int) {
    exists i :: 0 <= i < |ms| && ms[i].stamp == Some(id)
  }

  // In a well-stamped history "above lo" is a suffix.
  function FirstAbove(ms: seq<Msg>, lo: int): (k: nat)
    ensures k <= |ms|
  {
    if ms == [] then 0
    else if lo < EffectiveId(ms, |ms| - 1) then FirstAbove(ms[..|ms| - 1], lo)
    else |ms|
  }

  lemma {:induction false} FirstAboveSpec(ms: seq<Msg>, lo: int)
    requires WellStamped(ms)
    ensures forall i :: 0 <= i < |ms| ==> (lo < EffectiveId(ms, i) <==> FirstAbove(ms, lo) <= i)
  {
    if ms != [] {
      var n := |ms| - 1;
      FirstAboveSpec(ms[..n], lo);
      forall i | 0 <= i < n
        ensures EffectiveId(ms[..n], i) == EffectiveId(ms, i) <= EffectiveId(ms, n)
      {
        EffectiveIdOfPrefix(ms, n, i);
        EffectiveIdsGrow(ms, i, n);
      }
    }
  }

  predicate InBand(ms: seq<Msg>, i: nat, lo: int, hi: Option<int>)
    requires i < |ms|
  {
    lo < EffectiveId(ms, i) && (hi.Some? ==> EffectiveId(ms, i) <= hi.value)
  }

  lemma BetweenUnfolds(ms: seq<Msg>, lo: int, hi: Option<int>)
    requires ms != []
    ensures Between(ms, lo, hi)
            == Between(ms[..|ms| - 1], lo, hi) + if InBand(ms, |ms| - 1, lo, hi) then [ms[|ms| - 1]] else []
  {
  }

  lemma SliceUnfolds<T>(s: seq<T>, a: nat, b: nat)
    requires a <= b <= |s| && s != []
    ensures var n := |s| - 1;
            if b <= n then s[a..b] == s[..n][a..b]
            else s[a..b] == s[..n][if a <= n then a else n..n] + if a <= n then [s[n]] else []
  {
  }

  lemma {:induction false} BetweenIsSlice(ms: seq<Msg>, lo: int, hi: Option<int>, a: nat, b: nat)
    requires a <= b <= |ms|
    requires forall i :: 0 <= i < |ms| ==> (a <= i < b <==> InBand(ms, i, lo, hi))
    ensures Between(ms, lo, hi) == ms[a..b]
  {
    if ms != [] {
      var n := |ms| - 1;
      forall i | 0 <= i < n ensures InBand(ms[..n], i, lo, hi) <==> InBand(ms, i, lo, hi) {
        EffectiveIdOfPrefix(ms, n, i);
      }
      BetweenUnfolds(ms, lo, hi);
      SliceUnfolds(ms, a, b);
      BetweenIsSlice(ms[..n], lo, hi, if a <= n then a else n, if b <= n then b else n);
    } else {
      assert ms[a..b] == [];
    }
  }

  lemma AboveIsSuffix(ms: seq<Msg>, lo: int)
    requires WellStamped(ms)
    ensures Above(ms, lo) == ms[FirstAbove(ms, lo)..]
    ensures forall i :: 0 <= i < |ms| ==> (lo < EffectiveId(ms, i) <==> FirstAbove(ms, lo) <= i)
  {
    FirstAboveSpec(ms, lo);
    assert forall i :: 0 <= i < |ms| ==> (FirstAbove(ms, lo) <= i < |ms| <==> InBand(ms, i, lo, None));
    BetweenIsSlice(ms, lo, None, FirstAbove(ms, lo), |ms|);
  }

  // ---------------------------------------------------------------- the layered view

  method BuildLayers(ms: seq<Msg>, summaryUpto: Option<int>, layer1From: Option<int>)
    returns (layer2: seq<Msg>, layer1: seq<Msg>)
    ensures var upto, from := Ledger.OrZero(summaryUpto), if layer1From.Some? then layer1From.value else -1;
            layer2 == Between(ms, upto, Some(from)) && layer1 == Above(ms, if upto <= from then from else upto)
  {
    var upto := Ledger.OrZero(summaryUpto);
    var from := if layer1From.Some? then layer1From.value else -1;
    var ids := EffectiveIds(ms);
    layer2, layer1 := [], [];
    for i := 0 to |ms|
      invariant layer2 == Between(ms[..i], upto, Some(from))
      invariant layer1 == Above(ms[..i], if upto <= from then from else upto)
    {
      assert ms[..i + 1][..i] == ms[..i];
      EffectiveIdOfPrefix(ms, i + 1, i);
      if ids[i] <= upto {
        continue;
      }
      if ids[i] <= from {
        layer2 := layer2 + [ms[i]];
      } else {
        layer1 := layer1 + [ms[i]];
      }
    }
    assert ms[..|ms|] == ms;
  }

  lemma FirstAboveGrows(ms: seq<Msg>, lo: int, hi: int)
    requires WellStamped(ms) && lo <= hi
    ensures FirstAbove(ms, lo) <= FirstAbove(ms, hi)
  {
    FirstAboveSpec(ms, lo);
    FirstAboveSpec(ms, hi);
    if FirstAbove(ms, hi) < |ms| {
      assert hi < EffectiveId(ms, FirstAbove(ms, hi));
    }
  }

  lemma BetweenIsStretch(ms: seq<Msg>, lo: int, hi: int)
    requires WellStamped(ms) && lo <= hi
    ensures FirstAbove(ms, lo) <= FirstAbove(ms, hi)
    ensures Between(ms, lo, Some(hi)) == ms[FirstAbove(ms, lo)..FirstAbove(ms, hi)]
  {
    FirstAboveGrows(ms, lo, hi);
    FirstAboveSpec(ms, lo);
    FirstAboveSpec(ms, hi);
    assert forall i :: 0 <= i < |ms| ==>
            (FirstAbove(ms, lo) <= i < FirstAbove(ms, hi) <==> InBand(ms, i, lo, Some(hi)));
    BetweenIsSlice(ms, lo, Some(hi), FirstAbove(ms, lo), FirstAbove(ms, hi));
  }

  // The history is cut into three consecutive stretches: summarised, layer 2, layer 1.
  lemma LayersPartition(ms: seq<Msg>, upto: int, from: int)
    requires WellStamped(ms) && 0 <= upto <= from
    ensures Between(ms, 0, Some(upto)) + Between(ms, upto, Some(from)) + Above(ms, from) == ms
  {
    AboveIsSuffix(ms, from);
    BetweenIsStretch(ms, 0, upto);
    BetweenIsStretch(ms, upto, from);
    FirstAboveSpec(ms, 0);
    if ms != [] {
      var k := EffectiveIdSource(ms, 0);
    }
    assert FirstAbove(ms, 0) == 0;
    var a, b := FirstAbove(ms, upto), FirstAbove(ms, from);
    assert ms[0..a] + ms[a..b] + ms[b..] == ms;
  }

  // ---------------------------------------------------------------- the cut

  // The first place from which the rest fits the budget.
  function FitFrom(ms: seq<Msg>, budget: int): (k: nat)
    ensures k <= |ms|
  {
    if ms == [] || Cost(ms) <= budget then 0 else 1 + FitFrom(ms[1..], budget)
  }

  function HumanFrom(ms: seq<Msg>): (k: nat)
    ensures k <= |ms|
  {
    if ms == [] || ms[0].kind == Human then 0 else 1 + HumanFrom(ms[1..])
  }

  // The library call: the longest fitting suffix, cut back to its first user message.
  function KeepFrom(ms: seq<Msg>, budget: int): (k: nat)
    ensures k <= |ms|
  {
    FitFrom(ms, budget) + HumanFrom(ms[FitFrom(ms, budget)..])
  }

  lemma {:induction false} FitFromFits(ms: seq<Msg>, budget: int)
    requires FitFrom(ms, budget) < |ms|
    ensures Cost(ms[FitFrom(ms, budget)..]) <= budget
  {
    if Cost(ms) > budget {
      FitFromFits(ms[1..], budget);
      SuffixOfSuffix(ms, 1, FitFrom(ms[1..], budget));
    } else {
      assert ms[0..] == ms;
    }
  }

  lemma {:induction false} EarlierExceeds(ms: seq<Msg>, budget: int, j: nat)
    requires j < FitFrom(ms, budget)
    ensures Cost(ms[j..]) > budget
  {
    if j == 0 {
      assert ms[0..] == ms;
    } else {
      EarlierExceeds(ms[1..], budget, j - 1);
      SuffixOfSuffix(ms, 1, j - 1);
    }
  }

  lemma SuffixOfSuffix<T>(s: seq<T>, f: nat, h: nat)
    requires f + h < |s|
    ensures s[f..][h..] == s[f + h..] && s[f..][h] == s[f + h]
  {
  }

  lemma {:induction false} HumanFromSpec(ms: seq<Msg>)
    ensures var k := HumanFrom(ms);
            && (k < |ms| ==> ms[k].kind == Human)
            && forall j :: 0 <= j < k ==> ms[j].kind != Human
  {
    if ms != [] && ms[0].kind != Human {
      HumanFromSpec(ms[1..]);
    }
  }

  lemma {:induction false} CostOfSuffix(ms: seq<Msg>, k: nat)
    requires k <= |ms|
    ensures Cost(ms[k..]) <= Cost(ms)
  {
    if k == 0 {
      assert ms[0..] == ms;
    } else {
      CostOfSuffix(ms[1..], k - 1);
      assert ms[k..] == ms[1..][k - 1..];
    }
  }

  lemma HumanSuffixFits(fitting: seq<Msg>, budget: int)
    requires Cost(fitting) <= budget && HumanFrom(fitting) < |fitting|
    ensures fitting[HumanFrom(fitting)].kind == Human && Cost(fitting[HumanFrom(fitting)..]) <= budget
  {
    HumanFromSpec(fitting);
    CostOfSuffix(fitting, HumanFrom(fitting));
  }

  lemma KeepFits(ms: seq<Msg>, budget: int)
    requires KeepFrom(ms, budget) < |ms|
    ensures ms[KeepFrom(ms, budget)].kind == Human && Cost(ms[KeepFrom(ms, budget)..]) <= budget
  {
    FitFromFits(ms, budget);
    KeptFits(ms, FitFrom(ms, budget), HumanFrom(ms[FitFrom(ms, budget)..]), budget);
  }

  lemma KeptFits(ms: seq<Msg>, f: nat, h: nat, budget: int)
    requires f + h < |ms| && h == HumanFrom(ms[f..]) && Cost(ms[f..]) <= budget
    ensures ms[f + h].kind == Human && Cost(ms[f + h..]) <= budget
  {
    HumanSuffixFits(ms[f..], budget);
    SuffixOfSuffix(ms, f, h);
  }

  lemma EarlierDoesNotFit(ms: seq<Msg>, budget: int, j: nat)
    requires j < KeepFrom(ms, budget)
    ensures ms[j].kind != Human || Cost(ms[j..]) > budget
  {
    var f := FitFrom(ms, budget);
    if j < f {
      EarlierExceeds(ms, budget, j);
    } else {
      HumanFromSpec(ms[f..]);
      assert ms[j] == ms[f..][j - f];
    }
  }

  // What is kept is empty or starts at a user message, fits, and no longer suffix does both.
  lemma KeepIsLongest(ms: seq<Msg>, budget: int)
    ensures var k := KeepFrom(ms, budget);
            && (k < |ms| ==> ms[k].kind == Human && Cost(ms[k..]) <= budget)
            && forall j :: 0 <= j < k ==> ms[j].kind != Human || Cost(ms[j..]) > budget
  {
    if KeepFrom(ms, budget) < |ms| {
      KeepFits(ms, budget);
    }
    forall j | 0 <= j < KeepFrom(ms, budget) ensures ms[j].kind != Human || Cost(ms[j..]) > budget {
      EarlierDoesNotFit(ms, budget, j);
    }
  }

  // The greatest of the first n effective ids that lies below the bound.
  function MaxBelow(ms: seq<Msg>, n: nat, bound: int): Option<int>
    requires n <= |ms|
  {
    if n == 0 then None
    else
      var rest, id := MaxBelow(ms, n - 1, bound), EffectiveId(ms, n - 1);
      if id < bound && (rest.None? || rest.value < id) then Some(id) else rest
  }

  // The greatest effective id before the first kept message, or the last one when nothing is kept.
  function CutAt(span: seq<Msg>, k: nat): Option<int>
    requires k <= |span| && span != []
  {
    if k == |span| then Some(EffectiveId(span, |span| - 1))
    else MaxBelow(span, |span|, EffectiveId(span, k))
  }

  function Degrade(ms: seq<Msg>, layer1From: Option<int>, budget: int): Option<int> {
    var span := Above(ms, if layer1From.Some? then layer1From.value else -1);
    if span == [] || Cost(span) <= budget then None
    else CutAt(span, KeepFrom(span, budget))
  }

  method EvaluateDegrade(ms: seq<Msg>, layer1From: Option<int>, budget: int) returns (cut: Option<int>)
    ensures cut == Degrade(ms, layer1From, budget)
  {
    var base := if layer1From.Some? then layer1From.value else -1;
    var ids := EffectiveIds(ms);
    var span := [];
    for i := 0 to |ms|
      invariant span == Above(ms[..i], base)
    {
      assert ms[..i + 1][..i] == ms[..i];
      EffectiveIdOfPrefix(ms, i + 1, i);
      if base < ids[i] {
        span := span + [ms[i]];
      }
    }
    assert ms[..|ms|] == ms;
    if span == [] || Cost(span) <= budget {
      return None;
    }
    var kept := KeepFrom(span, budget);
    var spanIds := EffectiveIds(span);
    if kept == |span| {
      return Some(spanIds[|span| - 1]);
    }
    var firstKept := spanIds[kept];
    cut := None;
    for i := 0 to |span|
      invariant cut == MaxBelow(span, i, firstKept)
    {
      if spanIds[i] < firstKept && (cut.None? || cut.value < spanIds[i]) {
        cut := Some(spanIds[i]);
      }
    }
  }

  // A stretch of layer 1 has the same effective ids as in the whole history: it starts at a stamp.
  lemma {:induction false} SuffixEffectiveIds(ms: seq<Msg>, s: nat, i: nat)
    requires s + i < |ms| && ms[s].stamp.Some?
    ensures EffectiveId(ms[s..], i) == EffectiveId(ms, s + i)
  {
    if i > 0 && ms[s + i].stamp.None? {
      SuffixEffectiveIds(ms, s, i - 1);
    }
  }

  lemma {:induction false} SuffixIsWellStamped(ms: seq<Msg>, s: nat)
    requires WellStamped(ms) && s < |ms| && ms[s].stamp.Some?
    ensures WellStamped(ms[s..])
  {
    var n := |ms| - 1;
    WellStampedAt(ms, s);
    if s > 0 {
      var k := EffectiveIdSource(ms, s - 1);
    }
    if s < n {
      SuffixIsWellStamped(ms[..n], s);
      assert ms[s..][..n - s] == ms[..n][s..];
      SuffixEffectiveIds(ms, s, n - s - 1);
      assert ms[s..][n - s] == ms[n];
    } else {
      assert ms[s..] == [ms[s]] && [ms[s]][..0] == [];
    }
  }

  lemma SuffixStartsStamped(ms: seq<Msg>, lo: int)
    requires WellStamped(ms) && FirstAbove(ms, lo) < |ms|
    ensures ms[FirstAbove(ms, lo)].stamp.Some?
    ensures WellStamped(ms[FirstAbove(ms, lo)..])
  {
    FirstAboveSpec(ms, lo);
    var s := FirstAbove(ms, lo);
    WellStampedAt(ms, s);
    if s > 0 {
      assert EffectiveId(ms, s - 1) <= lo < EffectiveId(ms, s);
    }
    SuffixIsWellStamped(ms, s);
  }

  lemma {:induction false} MaxBelowIsPrevious(ms: seq<Msg>, n: nat, k: nat)
    requires WellStamped(ms) && 0 < k < |ms| && n <= |ms| && ms[k].stamp.Some?
    ensures MaxBelow(ms, n, EffectiveId(ms, k))
            == if n == 0 then None else if n <= k then Some(EffectiveId(ms, n - 1)) else Some(EffectiveId(ms, k - 1))
  {
    if n > 0 {
      MaxBelowIsPrevious(ms, n - 1, k);
      if n - 1 < k {
        EffectiveIdsGrow(ms, n - 1, k);
        if n >= 2 {
          EffectiveIdsGrow(ms, n - 2, n - 1);
        }
      } else {
        EffectiveIdsGrow(ms, k, n - 1);
      }
    }
  }

  ghost predicate NeedsCut(layer: seq<Msg>, budget: int) {
    layer != [] && Cost(layer) > budget
  }

  lemma KeepIsProper(layer: seq<Msg>, budget: int)
    requires NeedsCut(layer, budget)
    ensures 0 < KeepFrom(layer, budget)
    ensures KeepFrom(layer, budget) < |layer| ==> layer[KeepFrom(layer, budget)].kind == Human
  {
    KeepIsLongest(layer, budget);
    assert layer[0..] == layer;
  }

  lemma CutAtIsPrevious(layer: seq<Msg>, k: nat)
    requires WellStamped(layer) && 0 < k <= |layer| && (k < |layer| ==> layer[k].stamp.Some?)
    ensures CutAt(layer, k) == Some(EffectiveId(layer, k - 1))
  {
    if k < |layer| {
      MaxBelowIsPrevious(layer, |layer|, k);
    }
  }

  lemma AnchorBeforeStamp(ms: seq<Msg>, m: nat)
    requires WellStamped(ms) && 0 < m <= |ms| && (m < |ms| ==> ms[m].stamp.Some?)
    ensures FirstAbove(ms, EffectiveId(ms, m - 1)) == m
  {
    var cut := EffectiveId(ms, m - 1);
    FirstAboveSpec(ms, cut);
    if m < |ms| {
      EffectiveIdsGrow(ms, m - 1, m);
    }
    assert FirstAbove(ms, cut) > m - 1;
  }

  lemma AboveAnchor(ms: seq<Msg>, m: nat, cut: int)
    requires WellStamped(ms) && 0 < m <= |ms| && (m < |ms| ==> ms[m].stamp.Some?)
    requires cut == EffectiveId(ms, m - 1)
    ensures Above(ms, cut) == ms[m..] && Stamps(ms, cut)
  {
    AboveIsSuffix(ms, cut);
    AnchorBeforeStamp(ms, m);
    var p := EffectiveIdSource(ms, m - 1);
  }

  // The cut in terms of the position it falls at: just before the k-th message of the layer.
  lemma CutPosition(ms: seq<Msg>, s: nat, k: nat)
    requires WellStamped(ms) && s < |ms| && ms[s].stamp.Some?
    requires 0 < k <= |ms| - s && (k < |ms| - s ==> ms[s + k].stamp.Some?)
    ensures CutAt(ms[s..], k) == Some(EffectiveId(ms, s + k - 1))
  {
    SuffixIsWellStamped(ms, s);
    CutAtIsPrevious(ms[s..], k);
    SuffixEffectiveIds(ms, s, k - 1);
  }

  // The kept part of the layer starts at a stamped message of the history.
  lemma KeptIsStamped(ms: seq<Msg>, s: nat, k: nat)
    requires WellStamped(ms) && s + k < |ms| && ms[s..][k].kind == Human
    ensures ms[s + k].stamp.Some?
  {
    WellStampedAt(ms, s + k);
  }

  lemma LayerStart(ms: seq<Msg>, base: int) returns (s: nat)
    requires WellStamped(ms) && Above(ms, base) != []
    ensures s < |ms| && Above(ms, base) == ms[s..] && ms[s].stamp.Some?
    ensures forall i :: s <= i < |ms| ==> base < EffectiveId(ms, i)
  {
    AboveIsSuffix(ms, base);
    s := FirstAbove(ms, base);
    SuffixStartsStamped(ms, base);
  }

  // Main result. No cut is proposed exactly when layer 1 is empty or fits. Otherwise the new anchor is
  // strictly later, and what stays above it is exactly the longest suffix of layer 1 that fits and starts at
  // a user message (or nothing): the "no earlier id" branch is never taken.
  lemma DegradeCut(ms: seq<Msg>, layer1From: Option<int>, budget: int)
    requires WellStamped(ms)
    ensures var base := if layer1From.Some? then layer1From.value else -1;
            var layer, cut := Above(ms, base), Degrade(ms, layer1From, budget);
            && (cut.None? <==> !NeedsCut(layer, budget))
            && (cut.Some? ==>
                  && base < cut.value
                  && Above(ms, cut.value) == layer[KeepFrom(layer, budget)..]
                  && Stamps(ms, cut.value))
  {
    var base := if layer1From.Some? then layer1From.value else -1;
    var layer := Above(ms, base);
    if NeedsCut(layer, budget) {
      DegradeNeeded(ms, base, layer, budget);
    }
  }

  lemma DegradeNeeded(ms: seq<Msg>, base: int, layer: seq<Msg>, budget: int)
    requires WellStamped(ms) && layer == Above(ms, base) && NeedsCut(layer, budget)
    ensures CutAt(layer, KeepFrom(layer, budget)).Some?
    ensures var cut := CutAt(layer, KeepFrom(layer, budget)).value;
            && base < cut && Above(ms, cut) == layer[KeepFrom(layer, budget)..]
            && Stamps(ms, cut)
  {
    var s := LayerStart(ms, base);
    KeepIsProper(layer, budget);
    var k := KeepFrom(layer, budget);
    CutAndRest(ms, s, k);
  }

  lemma CutAndRest(ms: seq<Msg>, s: nat, k: nat)
    requires WellStamped(ms) && s < |ms| && ms[s].stamp.Some?
    requires 0 < k <= |ms| - s && (k < |ms| - s ==> ms[s..][k].kind == Human)
    ensures CutAt(ms[s..], k) == Some(EffectiveId(ms, s + k - 1))
    ensures Above(ms, EffectiveId(ms, s + k - 1)) == ms[s..][k..]
    ensures Stamps(ms, EffectiveId(ms, s + k - 1))
  {
    if k < |ms| - s {
      KeptIsStamped(ms, s, k);
    }
    CutPosition(ms, s, k);
    AboveAnchor(ms, s + k, EffectiveId(ms, s + k - 1));
    assert ms[s..][k..] == ms[s + k..];
  }

  // Tool results stay on the side of the message whose calls they answer, for every anchor.
  lemma {:induction false} ToolResultsStayWithTheirCalls(ms: seq<Msg>, i: nat, j: nat, anchor: int)
    requires i <= j < |ms| && forall u :: i < u <= j ==> ms[u].stamp.None?
    ensures anchor < EffectiveId(ms, i) <==> anchor < EffectiveId(ms, j)
  {
    if i < j {
      ToolResultsStayWithTheirCalls(ms, i, j - 1, anchor);
    }
  }

  lemma AboveOfLater(ms: seq<Msg>, lo: int, hi: int)
    requires WellStamped(ms) && lo <= hi
    ensures Cost(Above(ms, hi)) <= Cost(Above(ms, lo))
  {
    AboveIsSuffix(ms, lo);
    AboveIsSuffix(ms, hi);
    FirstAboveGrows(ms, lo, hi);
    var a, b := FirstAbove(ms, lo), FirstAbove(ms, hi);
    CostOfSuffix(ms[a..], b - a);
    assert ms[a..][b - a..] == ms[b..];
  }

  lemma CutFits(ms: seq<Msg>, layer1From: Option<int>, budget: nat)
    requires WellStamped(ms) && Degrade(ms, layer1From, budget).Some?
    ensures Cost(Above(ms, Degrade(ms, layer1From, budget).value)) <= budget
  {
    var layer := Above(ms, if layer1From.Some? then layer1From.value else -1);
    DegradeCut(ms, layer1From, budget);
    KeepIsLongest(layer, budget);
  }

  // After an accepted cut, layer 1 of the next view fits the budget, wherever the summary anchor is.
  lemma NextViewFits(ms: seq<Msg>, layer1From: Option<int>, budget: nat, upto: int)
    requires WellStamped(ms) && Degrade(ms, layer1From, budget).Some?
    ensures var cut := Degrade(ms, layer1From, budget).value;
            Cost(Above(ms, if upto <= cut then cut else upto)) <= budget
  {
    CutFits(ms, layer1From, budget);
    var cut := Degrade(ms, layer1From, budget).value;
    AboveOfLater(ms, cut, if upto <= cut then cut else upto);
  }

  // ---------------------------------------------------------------- re-stamping old checkpoints

  datatype Rec = Rec(id: int, kind: Kind, content: string, calls: string, callId: string)

  predicate NeedsReconcile(ms: seq<Msg>) {
    exists i :: 0 <= i < |ms| && ms[i].kind != ToolResult && ms[i].stamp.None?
  }

  function Speech(ms: seq<Msg>): seq<Msg> {
    if ms == [] then []
    else Speech(ms[..|ms| - 1]) + if ms[|ms| - 1].kind != ToolResult then [ms[|ms| - 1]] else []
  }

  function Tools(ms: seq<Msg>): seq<Msg> {
    if ms == [] then []
    else Tools(ms[..|ms| - 1]) + if ms[|ms| - 1].kind == ToolResult then [ms[|ms| - 1]] else []
  }

  function SpeechRecords(rs: seq<Rec>): seq<Rec> {
    if rs == [] then []
    else SpeechRecords(rs[..|rs| - 1]) + if rs[|rs| - 1].kind != ToolResult then [rs[|rs| - 1]] else []
  }

  function ToolRecords(rs: seq<Rec>): seq<Rec> {
    if rs == [] then []
    else ToolRecords(rs[..|rs| - 1]) + if rs[|rs| - 1].kind == ToolResult then [rs[|rs| - 1]] else []
  }

  predicate SameKey(m: Msg, r: Rec) {
    (m.kind == Human <==> r.kind == Human) && m.content == r.content && m.calls == r.calls
  }

  predicate DistinctMessages(ms: seq<Msg>) {
    forall i, j :: 0 <= i < j < |ms| ==>
      !((ms[i].kind == Human <==> ms[j].kind == Human) && ms[i].content == ms[j].content && ms[i].calls == ms[j].calls)
  }

  predicate DistinctRecords(rs: seq<Rec>) {
    forall i, j :: 0 <= i < j < |rs| ==>
      !((rs[i].kind == Human <==> rs[j].kind == Human) && rs[i].content == rs[j].content && rs[i].calls == rs[j].calls)
  }

  predicate Aligned(ms: seq<Msg>, rs: seq<Rec>) {
    var speech, records := Speech(ms), SpeechRecords(rs);
    && DistinctMessages(speech) && DistinctRecords(records)
    && |speech| == |records| && (forall k :: 0 <= k < |speech| ==> SameKey(speech[k], records[k]))
    && (ToolRecords(rs) == []
        || (|Tools(ms)| == |ToolRecords(rs)|
            && forall k :: 0 <= k < |Tools(ms)| ==> Tools(ms)[k].callId == ToolRecords(rs)[k].callId))
  }

  // Each user or assistant message takes the id of the record in its place.
  function Restamp(ms: seq<Msg>, records: seq<Rec>): (out: seq<Msg>)
    ensures |out| == |ms|
  {
    if ms == [] then []
    else
      var m := ms[|ms| - 1];
      if m.kind == ToolResult || records == [] then Restamp(ms[..|ms| - 1], records) + [m]
      else Restamp(ms[..|ms| - 1], records[..|records| - 1]) + [m.(stamp := Some(records[|records| - 1].id))]
  }

  // Walks the messages and the records together, stamping as it goes.
  method RestampInOrder(ms: seq<Msg>, records: seq<Rec>) returns (r: Option<seq<Msg>>)
    requires |Speech(ms)| == |records|
    ensures r.Some? <==> forall k :: 0 <= k < |records| ==> SameKey(Speech(ms)[k], records[k])
    ensures r.Some? ==> r.value == Restamp(ms, records)
  {
    var out, taken := [], 0;
    for i := 0 to |ms|
      invariant 0 <= taken <= |records| && taken == |Speech(ms[..i])| && Speech(ms[..i]) <= Speech(ms)
      invariant out == Restamp(ms[..i], records[..taken])
      invariant forall k :: 0 <= k < taken ==> SameKey(Speech(ms)[k], records[k])
    {
      SpeechStep(ms, i);
      if ms[i].kind == ToolResult {
        out := out + [ms[i]];
      } else {
        if !SameKey(ms[i], records[taken]) {
          return None;
        }
        RestampStep(ms, records, i, taken);
        out := out + [ms[i].(stamp := Some(records[taken].id))];
        taken := taken + 1;
      }
    }
    assert ms[..|ms|] == ms && records[..|records|] == records;
    return Some(out);
  }

  lemma SpeechStep(ms: seq<Msg>, i: nat)
    requires i < |ms|
    ensures ms[..i + 1][..i] == ms[..i]
    ensures Speech(ms[..i + 1]) <= Speech(ms)
    ensures ms[i].kind == ToolResult ==> Speech(ms[..i + 1]) == Speech(ms[..i])
    ensures ms[i].kind != ToolResult ==>
              |Speech(ms[..i + 1])| == |Speech(ms[..i])| + 1 && |Speech(ms[..i])| < |Speech(ms)|
              && Speech(ms)[|Speech(ms[..i])|] == ms[i]
  {
    assert ms[..i + 1][..i] == ms[..i];
    SpeechOfPrefix(ms, i + 1);
  }

  lemma RestampStep(ms: seq<Msg>, records: seq<Rec>, i: nat, taken: nat)
    requires i < |ms| && taken < |records| && ms[i].kind != ToolResult
    ensures Restamp(ms[..i + 1], records[..taken + 1])
            == Restamp(ms[..i], records[..taken]) + [ms[i].(stamp := Some(records[taken].id))]
  {
    assert ms[..i + 1][..i] == ms[..i];
    assert records[..taken + 1][..taken] == records[..taken];
  }

  method ReconcileCheckpointIds(ms: seq<Msg>, rs: seq<Rec>) returns (r: Option<seq<Msg>>)
    ensures r.Some? <==> !NeedsReconcile(ms) || Aligned(ms, rs)
    ensures !NeedsReconcile(ms) ==> r == Some(ms)
    ensures NeedsReconcile(ms) && r.Some? ==> r.value == Restamp(ms, SpeechRecords(rs))
  {
    if !NeedsReconcile(ms) {
      return Some(ms);
    }
    var speech, records := Speech(ms), SpeechRecords(rs);
    if !DistinctMessages(speech) || !DistinctRecords(records) || |speech| != |records| {
      return None;
    }
    r := RestampInOrder(ms, records);
    if r.None? || ToolRecords(rs) == [] {
      return r;
    }
    if |Tools(ms)| != |ToolRecords(rs)| {
      return None;
    }
    for k := 0 to |Tools(ms)|
      invariant forall j :: 0 <= j < k ==> Tools(ms)[j].callId == ToolRecords(rs)[j].callId
    {
      if Tools(ms)[k].callId != ToolRecords(rs)[k].callId {
        return None;
      }
    }
  }

  lemma {:induction false} SpeechOfPrefix(ms: seq<Msg>, n: nat)
    requires n <= |ms|
    ensures Speech(ms[..n]) <= Speech(ms)
    decreases |ms|
  {
    if n < |ms| {
      assert ms[..|ms| - 1][..n] == ms[..n];
      SpeechOfPrefix(ms[..|ms| - 1], n);
    } else {
      assert ms[..n] == ms;
    }
  }

  // An accepted alignment is the only one: a message and a record with the same key are in the same place.
  lemma AlignmentIsUnique(ms: seq<Msg>, rs: seq<Rec>, k: nat, l: nat)
    requires Aligned(ms, rs) && k < |Speech(ms)| && l < |SpeechRecords(rs)|
    ensures SameKey(Speech(ms)[k], SpeechRecords(rs)[l]) <==> k == l
  {
    var speech := Speech(ms);
    assert SameKey(speech[l], SpeechRecords(rs)[l]);
    if k < l {
      assert !((speech[k].kind == Human <==> speech[l].kind == Human)
               && speech[k].content == speech[l].content && speech[k].calls == speech[l].calls);
    } else if l < k {
      assert !((speech[l].kind == Human <==> speech[k].kind == Human)
               && speech[l].content == speech[k].content && speech[l].calls == speech[k].calls);
    }
  }

  function IdBefore(rs: seq<Rec>, i: nat): int
    requires i <= |rs|
  {
    if i > 0 then rs[i - 1].id else 0
  }

  ghost predicate IdsGrow(rs: seq<Rec>) {
    forall i :: 0 <= i < |rs| ==> IdBefore(rs, i) < rs[i].id
  }

  lemma IdsGrowInPrefix(rs: seq<Rec>, n: nat)
    requires IdsGrow(rs) && n <= |rs|
    ensures IdsGrow(rs[..n])
  {
    forall i | 0 <= i < n ensures IdBefore(rs[..n], i) < rs[..n][i].id {
      assert IdBefore(rs, i) < rs[i].id;
    }
  }

  // Well stamped, and the last effective id is the last record's.
  ghost predicate StampedBy(out: seq<Msg>, records: seq<Rec>) {
    && WellStamped(out)
    && (out == [] <==> records == [])
    && (out != [] ==> EffectiveId(out, |out| - 1) == records[|records| - 1].id > 0)
  }

  lemma StampedByTool(out: seq<Msg>, records: seq<Rec>, m: Msg)
    requires StampedBy(out, records) && out != [] && m.kind == ToolResult && m.stamp.None?
    ensures StampedBy(out + [m], records)
  {
    var out' := out + [m];
    assert out'[..|out|] == out;
    EffectiveIdOfPrefix(out', |out|, |out| - 1);
  }

  lemma StampedBySpeech(out: seq<Msg>, records: seq<Rec>, m: Msg)
    requires records != [] && StampedBy(out, records[..|records| - 1])
    requires m.kind != ToolResult && m.stamp == Some(records[|records| - 1].id)
    requires IdBefore(records, |records| - 1) < records[|records| - 1].id
    ensures StampedBy(out + [m], records)
  {
    var out' := out + [m];
    assert out'[..|out|] == out;
    if out != [] {
      EffectiveIdOfPrefix(out', |out|, |out| - 1);
    }
  }

  // A re-stamped checkpoint is well stamped, so the cut's guarantees hold for it.
  lemma {:induction false} RestampIsWellStamped(ms: seq<Msg>, records: seq<Rec>)
    requires |Speech(ms)| == |records| && IdsGrow(records)
    requires forall i :: 0 <= i < |ms| && ms[i].kind == ToolResult ==> ms[i].stamp.None?
    requires ms != [] ==> ms[0].kind != ToolResult
    ensures StampedBy(Restamp(ms, records), records)
  {
    if ms != [] {
      var n := |ms| - 1;
      if ms[n].kind == ToolResult {
        RestampIsWellStamped(ms[..n], records);
        StampedByTool(Restamp(ms[..n], records), records, ms[n]);
      } else {
        var k := |records| - 1;
        IdsGrowInPrefix(records, k);
        RestampIsWellStamped(ms[..n], records[..k]);
        assert IdBefore(records, k) < records[k].id;
        StampedBySpeech(Restamp(ms[..n], records[..k]), records, ms[n].(stamp := Some(records[k].id)));
      }
    }
  }

  // ---------------------------------------------------------------- the database accepts the cut

  predicate IsSpeechRow(rows: seq<Ledger.Row>, cid: int, k: int) {
    0 <= k < |rows| && rows[k].conversation == cid && rows[k].message.role != Messages.Tool
  }

  // Row k is the first user or assistant row of the conversation behind row p; legacy ledgers hold tool rows too.
  ghost predicate Adjacent(rows: seq<Ledger.Row>, cid: int, p: nat, k: nat) {
    && p < k && IsSpeechRow(rows, cid, k) && rows[p].conversation == cid
    && forall u :: p < u < k ==> !IsSpeechRow(rows, cid, u)
  }

  // The ledger behind a history: each stamp names a row of the conversation with the same role, and rows that
  // never reached the history (interrupted or cancelled turns) come in runs that begin with a user row.
  ghost predicate LedgerBehind(rows: seq<Ledger.Row>, cid: int, ms: seq<Msg>) {
    && (forall i :: 0 <= i < |ms| && ms[i].stamp.Some? ==> Ledger.HasRow(rows, cid, ms[i].stamp.value))
    && (forall k, i :: 0 <= k < |rows| && 0 <= i < |ms| && ms[i].stamp == Some(rows[k].id) ==>
          (rows[k].message.role == Messages.User <==> ms[i].kind == Human))
    && (forall p: nat, k: nat ::
          Adjacent(rows, cid, p, k) && rows[k].message.role != Messages.User && !Stamps(ms, rows[k].id) ==>
            !Stamps(ms, rows[p].id))
  }

  ghost predicate IsNext(rows: seq<Ledger.Row>, cid: int, p: nat, k: nat) {
    && p < k < |rows| && rows[p].conversation == cid && rows[k].conversation == cid
    && forall u :: p < u < k ==> rows[u].conversation != cid
  }

  // As turns were stored: behind a tool row comes another one or the assistant row that used it.
  ghost predicate ToolRowsInside(rows: seq<Ledger.Row>, cid: int) {
    forall k :: 0 <= k < |rows| && rows[k].conversation == cid && rows[k].message.role == Messages.Tool ==>
      IsFollowed(rows, cid, k)
  }

  ghost predicate IsFollowed(rows: seq<Ledger.Row>, cid: int, k: nat) {
    exists v: nat :: IsNext(rows, cid, k, v) && rows[v].message.role != Messages.User
  }

  lemma {:induction false} AssistantBehindTools(rows: seq<Ledger.Row>, cid: int, k: nat) returns (v: nat)
    requires ToolRowsInside(rows, cid)
    requires k < |rows| && rows[k].conversation == cid && rows[k].message.role == Messages.Tool
    ensures k < v && IsSpeechRow(rows, cid, v) && rows[v].message.role == Messages.Assistant
    ensures forall u :: k < u < v ==> !IsSpeechRow(rows, cid, u)
    decreases |rows| - k
  {
    assert IsFollowed(rows, cid, k);
    v :| IsNext(rows, cid, k, v) && rows[v].message.role != Messages.User;
    if rows[v].message.role == Messages.Tool {
      v := AssistantBehindTools(rows, cid, v);
    }
  }

  // The row that follows an anchor in the ledger, if any.
  lemma NextRow(rows: seq<Ledger.Row>, nextId: int, cid: int, p: nat) returns (k: nat)
    requires Ledger.RowsInOrder(rows, nextId) && p < |rows| && rows[p].conversation == cid
    ensures p < k <= |rows| && (k < |rows| ==> IsNext(rows, cid, p, k))
    ensures k < |rows| ==> Ledger.NextRole(rows, cid, rows[p].id) == Some(rows[k].message.role)
    ensures k == |rows| ==> Ledger.NextRole(rows, cid, rows[p].id).None?
  {
    k := p + 1;
    while k < |rows| && rows[k].conversation != cid
      invariant p < k <= |rows| && forall u :: p < u < k ==> rows[u].conversation != cid
    {
      k := k + 1;
    }
    if k < |rows| {
      Ledger.NextRoleSpec(rows, nextId, cid, rows[p].id, k);
    } else {
      Ledger.NextRoleNone(rows, cid, rows[p].id);
    }
  }

  lemma KeptStart(ms: seq<Msg>, layer1From: Option<int>, budget: int)
    requires WellStamped(ms) && Degrade(ms, layer1From, budget).Some?
    requires FirstAbove(ms, Degrade(ms, layer1From, budget).value) < |ms|
    ensures ms[FirstAbove(ms, Degrade(ms, layer1From, budget).value)].kind == Human
  {
    var layer, cut := Above(ms, if layer1From.Some? then layer1From.value else -1),
        Degrade(ms, layer1From, budget).value;
    DegradeCut(ms, layer1From, budget);
    AboveIsSuffix(ms, cut);
    KeepIsLongest(layer, budget);
    var kept := ms[FirstAbove(ms, cut)..];
    assert kept == layer[KeepFrom(layer, budget)..];
    assert kept[0] == layer[KeepFrom(layer, budget)];
  }

  // The first message the cut keeps is a user message, and no stamp above the cut is smaller than its own.
  lemma FirstKeptIsHuman(ms: seq<Msg>, layer1From: Option<int>, budget: int, j: nat)
    requires WellStamped(ms) && Degrade(ms, layer1From, budget).Some?
    requires j < |ms| && ms[j].stamp.Some? && Degrade(ms, layer1From, budget).value < ms[j].stamp.value
    ensures var cut := Degrade(ms, layer1From, budget).value;
            var t := FirstAbove(ms, cut);
            && t <= j && ms[t].kind == Human && ms[t].stamp.Some?
            && cut < ms[t].stamp.value <= ms[j].stamp.value
  {
    var cut := Degrade(ms, layer1From, budget).value;
    FirstAboveSpec(ms, cut);
    var t := FirstAbove(ms, cut);
    assert cut < EffectiveId(ms, j);
    KeptStart(ms, layer1From, budget);
    WellStampedAt(ms, t);
    EffectiveIdsGrow(ms, t, j);
  }

  // Behind the anchor, the first user or assistant row is a user row.
  lemma RowAfterCutIsUser(rows: seq<Ledger.Row>, nextId: int, cid: int, ms: seq<Msg>, layer1From: Option<int>,
                          budget: int, p: nat, k: nat)
    requires Ledger.RowsInOrder(rows, nextId) && WellStamped(ms) && LedgerBehind(rows, cid, ms)
    requires Degrade(ms, layer1From, budget).Some? && Adjacent(rows, cid, p, k)
    requires rows[p].id == Degrade(ms, layer1From, budget).value && Stamps(ms, rows[p].id)
    ensures rows[k].message.role == Messages.User
  {
    if Stamps(ms, rows[k].id) {
      var j :| 0 <= j < |ms| && ms[j].stamp == Some(rows[k].id);
      FirstKeptIsHuman(ms, layer1From, budget, j);
      var t := FirstAbove(ms, rows[p].id);
      UserRowAfterCut(rows, nextId, cid, ms, p, k, t);
    }
  }

  // A user message stamped between the two can only be the second one's.
  lemma UserRowAfterCut(rows: seq<Ledger.Row>, nextId: int, cid: int, ms: seq<Msg>, p: nat, k: nat, t: nat)
    requires Ledger.RowsInOrder(rows, nextId) && Adjacent(rows, cid, p, k) && LedgerBehind(rows, cid, ms)
    requires t < |ms| && ms[t].kind == Human && ms[t].stamp.Some? && rows[p].id < ms[t].stamp.value <= rows[k].id
    ensures rows[k].message.role == Messages.User
  {
    var v :| 0 <= v < |rows| && rows[v].id == ms[t].stamp.value && rows[v].conversation == cid;
    assert rows[v].message.role == Messages.User;
    RowsBetween(rows, nextId, p, v, k);
    assert IsSpeechRow(rows, cid, v);
  }

  lemma RowsBetween(rows: seq<Ledger.Row>, nextId: int, p: nat, v: nat, k: nat)
    requires Ledger.RowsInOrder(rows, nextId) && p < |rows| && v < |rows| && k < |rows|
    requires rows[p].id < rows[v].id <= rows[k].id
    ensures p < v <= k
  {
  }

  // The database boundary test accepts the proposed anchor exactly when no tool row stands directly behind it.
  lemma DegradeIsAcceptedIff(db: Ledger.Db, tokens: int, cid: int, owner: string, ms: seq<Msg>, budget: int)
    requires Ledger.Wf(db, tokens) && cid in db.conversations && db.conversations[cid].owner == owner
    requires WellStamped(ms) && LedgerBehind(db.rows, cid, ms)
    requires Degrade(ms, db.conversations[cid].layer1From, budget).Some?
    ensures var cut := Degrade(ms, db.conversations[cid].layer1From, budget).value;
            Ledger.MoveAccepted(db, cid, owner, cut) <==> Ledger.NextRole(db.rows, cid, cut) != Some(Messages.Tool)
  {
    var from := db.conversations[cid].layer1From;
    var cut := Degrade(ms, from, budget).value;
    var p := AnchorRow(db.rows, cid, ms, from, budget);
    var k := NextRow(db.rows, db.nextId, cid, p);
    assert Ledger.HasRow(db.rows, cid, cut);
    if k < |db.rows| && db.rows[k].message.role != Messages.Tool {
      assert Adjacent(db.rows, cid, p, k);
      RowAfterCutIsUser(db.rows, db.nextId, cid, ms, from, budget, p, k);
    }
  }

  lemma AnchorRow(rows: seq<Ledger.Row>, cid: int, ms: seq<Msg>, layer1From: Option<int>, budget: int) returns (p: nat)
    requires WellStamped(ms) && LedgerBehind(rows, cid, ms) && Degrade(ms, layer1From, budget).Some?
    ensures p < |rows| && rows[p].conversation == cid && rows[p].id == Degrade(ms, layer1From, budget).value
    ensures Stamps(ms, rows[p].id) && (layer1From.None? || layer1From.value < rows[p].id)
  {
    DegradeCut(ms, layer1From, budget);
    var cut := Degrade(ms, layer1From, budget).value;
    var i :| 0 <= i < |ms| && ms[i].stamp == Some(cut);
    assert Ledger.HasRow(rows, cid, cut);
    p :| 0 <= p < |rows| && rows[p].id == cut && rows[p].conversation == cid;
  }

  // So with tool rows inside their turns, or none at all, the cut is never refused.
  lemma DegradeIsAccepted(db: Ledger.Db, tokens: int, cid: int, owner: string, ms: seq<Msg>, budget: int)
    requires Ledger.Wf(db, tokens) && cid in db.conversations && db.conversations[cid].owner == owner
    requires WellStamped(ms) && LedgerBehind(db.rows, cid, ms) && ToolRowsInside(db.rows, cid)
    requires Degrade(ms, db.conversations[cid].layer1From, budget).Some?
    ensures Ledger.MoveAccepted(db, cid, owner, Degrade(ms, db.conversations[cid].layer1From, budget).value)
  {
    var from := db.conversations[cid].layer1From;
    DegradeIsAcceptedIff(db, tokens, cid, owner, ms, budget);
    var p := AnchorRow(db.rows, cid, ms, from, budget);
    var k := NextRow(db.rows, db.nextId, cid, p);
    if k < |db.rows| {
      NoToolRowAfterCut(db.rows, db.nextId, cid, ms, from, budget, p, k);
    }
  }

  lemma NoToolRowAfterCut(rows: seq<Ledger.Row>, nextId: int, cid: int, ms: seq<Msg>, layer1From: Option<int>,
                          budget: int, p: nat, k: nat)
    requires Ledger.RowsInOrder(rows, nextId) && WellStamped(ms) && LedgerBehind(rows, cid, ms)
    requires ToolRowsInside(rows, cid) && IsNext(rows, cid, p, k)
    requires Degrade(ms, layer1From, budget).Some? && Stamps(ms, rows[p].id)
    requires rows[p].id == Degrade(ms, layer1From, budget).value
    ensures rows[k].message.role != Messages.Tool
  {
    if rows[k].message.role == Messages.Tool {
      var v := AssistantBehindTools(rows, cid, k);
      assert Adjacent(rows, cid, p, v);
      RowAfterCutIsUser(rows, nextId, cid, ms, layer1From, budget, p, v);
    }
  }

  // ---------------------------------------------------------------- a ledger that refuses

  lemma AllAbove(ms: seq<Msg>)
    requires WellStamped(ms) && ms != []
    ensures Above(ms, -1) == ms
  {
    AboveIsSuffix(ms, -1);
    WellStampedAt(ms, 0);
    assert ms[0..] == ms;
  }

  lemma CutAll(ms: seq<Msg>)
    requires WellStamped(ms) && ms != [] && ms[0].stamp.Some?
    ensures Degrade(ms, None, 0) == Some(EffectiveId(ms, |ms| - 1))
  {
    AllAbove(ms);
    KeepNothing(ms);
    CutWhole(ms);
  }

  lemma CutWhole(ms: seq<Msg>)
    requires WellStamped(ms) && ms != [] && ms[0].stamp.Some?
    ensures CutAt(ms, |ms|) == Some(EffectiveId(ms, |ms| - 1))
  {
    CutPosition(ms, 0, |ms|);
    assert ms[0..] == ms;
  }

  lemma KeepNothing(ms: seq<Msg>)
    requires ms != []
    ensures KeepFrom(ms, 0) == |ms| && NeedsCut(ms, 0)
  {
    KeepIsLongest(ms, 0);
  }

  // A tool row behind the last stamped message, and a cut that keeps nothing.
  lemma ToolRowRefusesTheCut(tokens: int)
    ensures var q, a := Messages.StoredMessage(Messages.User, Some("q"), None),
                        Messages.StoredMessage(Messages.Assistant, None, Some(["c"]));
            var rows := [Ledger.Row(1, 1, q), Ledger.Row(2, 1, a),
                         Ledger.Row(3, 1, Messages.StoredMessage(Messages.Tool, Some("r"), None))];
            var db := Ledger.Db(map[1 := Ledger.Conversation("u", None, None, None)], rows, map[], 4);
            var ms := [Msg(Human, "q", "", "", Some(1)), Msg(Assistant, "", "c", "", Some(2)),
                       Msg(ToolResult, "r", "", "c", None)];
            && Ledger.Wf(db, tokens) && WellStamped(ms) && LedgerBehind(rows, 1, ms)
            && Degrade(ms, None, 0) == Some(2) && !Ledger.MoveAccepted(db, 1, "u", 2)
  {
    var q, a := Messages.StoredMessage(Messages.User, Some("q"), None),
                Messages.StoredMessage(Messages.Assistant, None, Some(["c"]));
    var tool := Messages.StoredMessage(Messages.Tool, Some("r"), None);
    var rows := [Ledger.Row(1, 1, q), Ledger.Row(2, 1, a), Ledger.Row(3, 1, tool)];
    var db := Ledger.Db(map[1 := Ledger.Conversation("u", None, None, None)], rows, map[], 4);
    var ms := [Msg(Human, "q", "", "", Some(1)), Msg(Assistant, "", "c", "", Some(2)),
               Msg(ToolResult, "r", "", "c", None)];
    LegacyHistory(ms);
    LegacyLedger(rows, ms);
    assert Ledger.Wf(db, tokens);
    CutAll(ms);
    Ledger.NextRoleSpec(rows, 4, 1, 2, 2);
  }

  lemma LegacyHistory(ms: seq<Msg>)
    requires |ms| == 3 && ms[0].kind == Human && ms[0].stamp == Some(1) && ms[1].kind == Assistant
    requires ms[1].stamp == Some(2) && ms[2].kind == ToolResult && ms[2].stamp.None?
    ensures WellStamped(ms) && EffectiveId(ms, 2) == 2
  {
    assert ms[..2][..1] == ms[..1] && ms[..1][..0] == [];
    assert WellStamped(ms[..1]);
    assert WellStamped(ms[..2]);
  }

  lemma LegacyLedger(rows: seq<Ledger.Row>, ms: seq<Msg>)
    requires |rows| == 3 && forall k :: 0 <= k < 3 ==> rows[k].id == k + 1 && rows[k].conversation == 1
    requires rows[0].message.role == Messages.User && rows[1].message.role == Messages.Assistant
    requires rows[2].message.role == Messages.Tool
    requires |ms| == 3 && ms[0].kind == Human && ms[0].stamp == Some(1) && ms[1].kind == Assistant
    requires ms[1].stamp == Some(2) && ms[2].stamp.None?
    ensures LedgerBehind(rows, 1, ms)
  {
    assert rows[0].id == 1 && rows[1].id == 2;
    assert Stamps(ms, rows[1].id);
  }
}
