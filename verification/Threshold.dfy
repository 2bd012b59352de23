/** The search for a refusal threshold over observed scores (evals/run_retrieval_compare.py), in exact arithmetic. The
    search tries only scores that occur, in ascending order; its choice is compared here with every real threshold
    that meets the limit on wrong cases that pass. */
module Threshold {
  import opened Basics

  // top1 is None when nothing was retrieved; recall is the section recall of the case.
  datatype Sample = Sample(shouldRefuse: bool, top1: Option<real>, recall: real)

  datatype Choice = Choice(threshold: real, dRate: real, overRefusal: real, recall: real)

  predicate Passes(s: Sample, t: real) {
    s.top1.Some? && s.top1.value >= t
  }

  function Neg(samples: seq<Sample>): seq<Sample> {
    if samples == [] then []
    else Neg(samples[..|samples| - 1]) + if samples[|samples| - 1].shouldRefuse then [samples[|samples| - 1]] else []
  }

  function Pos(samples: seq<Sample>): seq<Sample> {
    if samples == [] then []
    else Pos(samples[..|samples| - 1]) + if samples[|samples| - 1].shouldRefuse then [] else [samples[|samples| - 1]]
  }

  function CountPassing(samples: seq<Sample>, t: real): nat {
    if samples == [] then 0
    else CountPassing(samples[..|samples| - 1], t) + if Passes(samples[|samples| - 1], t) then 1 else 0
  }

  function CountRefused(samples: seq<Sample>, t: real): nat {
    if samples == [] then 0
    else CountRefused(samples[..|samples| - 1], t) + if Passes(samples[|samples| - 1], t) then 0 else 1
  }

  function SumRecall(samples: seq<Sample>, t: real): real {
    if samples == [] then 0.0
    else
      SumRecall(samples[..|samples| - 1], t)
      + if Passes(samples[|samples| - 1], t) then samples[|samples| - 1].recall else 0.0
  }

  function Rate(x: real, n: nat): real {
    if n == 0 then 0.0 else x / n as real
  }

  // _score_threshold
  function Score(pos: seq<Sample>, neg: seq<Sample>, t: real): Choice {
    Choice(t, Rate(CountPassing(neg, t) as real, |neg|), Rate(CountRefused(pos, t) as real, |pos|),
        Rate(SumRecall(pos, t), |pos|))
  }

  // Every sample is either one that should be refused or one that should not.
  lemma {:induction false} SamplesSplit(samples: seq<Sample>)
    ensures multiset(Pos(samples)) + multiset(Neg(samples)) == multiset(samples)
  {
    if samples != [] {
      var init, last := samples[..|samples| - 1], samples[|samples| - 1];
      SamplesSplit(init);
      assert samples == init + [last];
      assert multiset(samples) == multiset(init) + multiset{last};
      if last.shouldRefuse {
        assert Pos(samples) == Pos(init) && Neg(samples) == Neg(init) + [last];
      } else {
        assert Neg(samples) == Neg(init) && Pos(samples) == Pos(init) + [last];
      }
    }
  }

  lemma {:induction false} SidesAreRight(samples: seq<Sample>)
    ensures forall s :: s in Neg(samples) ==> s.shouldRefuse
    ensures forall s :: s in Pos(samples) ==> !s.shouldRefuse
  {
    if samples != [] {
      SidesAreRight(samples[..|samples| - 1]);
    }
  }

  // The three sums are taken sample by sample.
  lemma {:induction false} SumsOfConcat(a: seq<Sample>, b: seq<Sample>, t: real)
    ensures CountPassing(a + b, t) == CountPassing(a, t) + CountPassing(b, t)
    ensures CountRefused(a + b, t) == CountRefused(a, t) + CountRefused(b, t)
    ensures SumRecall(a + b, t) == SumRecall(a, t) + SumRecall(b, t)
  {
    if b == [] {
      assert a + b == a;
    } else {
      SumsOfConcat(a, b[..|b| - 1], t);
      assert (a + b)[..|a + b| - 1] == a + b[..|b| - 1];
    }
  }

  // A sample passes with a score of at least the threshold; only then its recall counts.
  lemma SumsOfOne(s: Sample, t: real)
    ensures var passes := s.top1.Some? && t <= s.top1.value;
            && CountPassing([s], t) == (if passes then 1 else 0) && CountRefused([s], t) == (if passes then 0 else 1)
            && SumRecall([s], t) == if passes then s.recall else 0.0
  {
    assert [s][..0] == [];
  }

  // The figures are shares of the samples on their side, and nothing where there are none.
  lemma FiguresAreRates(pos: seq<Sample>, neg: seq<Sample>, t: real)
    ensures var score := Score(pos, neg, t);
            && score.threshold == t && score.dRate == Rate(CountPassing(neg, t) as real, |neg|)
            && score.overRefusal == Rate(CountRefused(pos, t) as real, |pos|)
            && score.recall == Rate(SumRecall(pos, t), |pos|)
  {
  }

  lemma RateIsShare(x: real, n: nat)
    ensures if n == 0 then Rate(x, n) == 0.0 else Rate(x, n) * n as real == x
  {
  }

  ghost predicate RecallsOk(samples: seq<Sample>) {
    forall i :: 0 <= i < |samples| ==> samples[i].recall >= 0.0
  }

  // ---------------------------------------------------------------- candidates

  ghost predicate Ascending(xs: seq<real>) {
    forall i, j :: 0 <= i < j < |xs| ==> xs[i] < xs[j]
  }

  function InsertNew(x: real, xs: seq<real>): seq<real> {
    if xs == [] || xs[|xs| - 1] < x then xs + [x]
    else if xs[|xs| - 1] == x then xs
    else InsertNew(x, xs[..|xs| - 1]) + [xs[|xs| - 1]]
  }

  lemma {:induction false} InsertNewFacts(x: real, xs: seq<real>)
    requires Ascending(xs)
    ensures Ascending(InsertNew(x, xs))
    ensures forall y :: y in InsertNew(x, xs) <==> y == x || y in xs
  {
    if xs != [] {
      var n := |xs| - 1;
      assert xs == xs[..n] + [xs[n]];
      if x < xs[n] {
        InsertNewFacts(x, xs[..n]);
        var less := InsertNew(x, xs[..n]);
        forall i | 0 <= i < |less| ensures less[i] < xs[n] {
          assert less[i] in less;
        }
      }
    }
  }

  // A score some case was retrieved with.
  ghost predicate IsObserved(samples: seq<Sample>, t: real) {
    exists i :: 0 <= i < |samples| && samples[i].top1 == Some(t)
  }

  method ThresholdCandidates(samples: seq<Sample>) returns (candidates: seq<real>, pos: seq<Sample>, neg: seq<Sample>)
    ensures Ascending(candidates) && forall t :: t in candidates <==> IsObserved(samples, t)
    ensures pos == Pos(samples) && neg == Neg(samples)
  {
    candidates, pos, neg := [], [], [];
    for i := 0 to |samples|
      invariant Ascending(candidates)
      invariant forall t :: t in candidates <==> exists k :: 0 <= k < i && samples[k].top1 == Some(t)
      invariant pos == Pos(samples[..i]) && neg == Neg(samples[..i])
    {
      assert samples[..i + 1][..i] == samples[..i];
      if samples[i].top1.Some? {
        InsertNewFacts(samples[i].top1.value, candidates);
        candidates := InsertNew(samples[i].top1.value, candidates);
      }
      if samples[i].shouldRefuse {
        neg := neg + [samples[i]];
      } else {
        pos := pos + [samples[i]];
      }
    }
    assert samples[..|samples|] == samples;
  }

  // ---------------------------------------------------------------- monotonicity

  lemma {:induction false} PassingFalls(samples: seq<Sample>, t: real, u: real)
    requires t <= u
    ensures CountPassing(samples, u) <= CountPassing(samples, t)
    ensures CountRefused(samples, t) <= CountRefused(samples, u)
  {
    if samples != [] {
      PassingFalls(samples[..|samples| - 1], t, u);
    }
  }

  lemma {:induction false} RecallFalls(samples: seq<Sample>, t: real, u: real)
    requires t <= u && RecallsOk(samples)
    ensures SumRecall(samples, u) <= SumRecall(samples, t)
  {
    if samples != [] {
      RecallFalls(samples[..|samples| - 1], t, u);
    }
  }

  lemma RateGrows(x: real, y: real, n: nat)
    requires x <= y
    ensures Rate(x, n) <= Rate(y, n)
  {
    if n > 0 {
      DivideGrows(x, y, n as real);
    }
  }

  lemma DivideGrows(x: real, y: real, d: real)
    requires x <= y && d > 0.0
    ensures x / d <= y / d
  {
    var k := (y - x) / d;
    assert k >= 0.0;
    assert y / d == x / d + k;
  }

  // A higher threshold passes fewer wrong cases, refuses more right ones and recalls less.
  lemma ScoreFalls(pos: seq<Sample>, neg: seq<Sample>, t: real, u: real)
    requires t <= u && RecallsOk(pos)
    ensures Score(pos, neg, u).dRate <= Score(pos, neg, t).dRate
    ensures Score(pos, neg, t).overRefusal <= Score(pos, neg, u).overRefusal
    ensures Score(pos, neg, u).recall <= Score(pos, neg, t).recall
  {
    PassingFalls(neg, t, u);
    PassingFalls(pos, t, u);
    RecallFalls(pos, t, u);
    RateGrows(CountPassing(neg, u) as real, CountPassing(neg, t) as real, |neg|);
    RateGrows(CountRefused(pos, t) as real, CountRefused(pos, u) as real, |pos|);
    RateGrows(SumRecall(pos, u), SumRecall(pos, t), |pos|);
  }

  // ---------------------------------------------------------------- the choice

  // The three-part key: more recall, then fewer refusals, then a lower threshold.
  predicate Better(a: Choice, b: Choice) {
    a.recall > b.recall
    || (a.recall == b.recall && (a.overRefusal < b.overRefusal
       || (a.overRefusal == b.overRefusal && a.threshold < b.threshold)))
  }

  predicate Feasible(pos: seq<Sample>, neg: seq<Sample>, t: real, maxDPass: real) {
    Score(pos, neg, t).dRate <= maxDPass
  }

  // None is the failed calibration. With its three-part key the search returns the least observed score that meets the
  // limit, and fails only when none does.
  method ChooseStrategyThreshold(samples: seq<Sample>, maxDPass: real) returns (r: Option<Choice>)
    requires RecallsOk(samples)
    ensures r.None? <==> forall t :: IsObserved(samples, t) ==> !Feasible(Pos(samples), Neg(samples), t, maxDPass)
    ensures r.Some? ==>
              && r.value == Score(Pos(samples), Neg(samples), r.value.threshold)
              && IsObserved(samples, r.value.threshold)
                 && Feasible(Pos(samples), Neg(samples), r.value.threshold, maxDPass)
              && forall t :: IsObserved(samples, t) && Feasible(Pos(samples), Neg(samples), t, maxDPass) ==>
                 r.value.threshold <= t
  {
    var candidates, pos, neg := ThresholdCandidates(samples);
    PosRecalls(samples);
    r := None;
    for i := 0 to |candidates|
      invariant r.None? <==> forall k :: 0 <= k < i ==> !Feasible(pos, neg, candidates[k], maxDPass)
      invariant r.Some? ==>
                  && r.value == Score(pos, neg, r.value.threshold) && Feasible(pos, neg, r.value.threshold, maxDPass)
                  && (exists k :: 0 <= k < i && candidates[k] == r.value.threshold)
                  && forall k :: 0 <= k < i && Feasible(pos, neg, candidates[k], maxDPass) ==>
                     r.value.threshold <= candidates[k]
    {
      var s := Score(pos, neg, candidates[i]);
      if s.dRate <= maxDPass {
        if r.Some? {
          ScoreFalls(pos, neg, r.value.threshold, candidates[i]);
        }
        if r.None? || Better(s, r.value) {
          r := Some(s);
        }
      }
    }
    forall t | IsObserved(samples, t) ensures exists k :: 0 <= k < |candidates| && candidates[k] == t {
      assert t in candidates;
    }
  }

  lemma {:induction false} PosRecalls(samples: seq<Sample>)
    requires RecallsOk(samples)
    ensures RecallsOk(Pos(samples))
  {
    if samples != [] {
      PosRecalls(samples[..|samples| - 1]);
    }
  }

  // ---------------------------------------------------------------- no real threshold is better

  // Thresholds between two neighbouring observed scores judge every case alike.
  lemma {:induction false} SameVerdicts(samples: seq<Sample>, t: real, c: real)
    requires forall i :: 0 <= i < |samples| ==> (Passes(samples[i], t) <==> Passes(samples[i], c))
    ensures CountPassing(samples, t) == CountPassing(samples, c) && CountRefused(samples, t) == CountRefused(samples, c)
    ensures SumRecall(samples, t) == SumRecall(samples, c)
  {
    if samples != [] {
      SameVerdicts(samples[..|samples| - 1], t, c);
    }
  }

  lemma {:induction false} NothingPasses(samples: seq<Sample>, t: real)
    requires forall i :: 0 <= i < |samples| ==> !Passes(samples[i], t)
    ensures SumRecall(samples, t) == 0.0 && CountRefused(samples, t) == |samples|
  {
    if samples != [] {
      NothingPasses(samples[..|samples| - 1], t);
    }
  }

  lemma {:induction false} RefusedAtMost(samples: seq<Sample>, t: real)
    ensures CountRefused(samples, t) <= |samples|
  {
    if samples != [] {
      RefusedAtMost(samples[..|samples| - 1], t);
    }
  }

  lemma {:induction false} RecallAtLeast(samples: seq<Sample>, t: real)
    requires RecallsOk(samples)
    ensures SumRecall(samples, t) >= 0.0
  {
    if samples != [] {
      RecallAtLeast(samples[..|samples| - 1], t);
    }
  }

  lemma {:induction false} PosNegMembers(samples: seq<Sample>)
    ensures forall i :: 0 <= i < |Pos(samples)| ==> Pos(samples)[i] in samples
    ensures forall i :: 0 <= i < |Neg(samples)| ==> Neg(samples)[i] in samples
  {
    if samples != [] {
      var init := samples[..|samples| - 1];
      PosNegMembers(init);
      assert samples == init + [samples[|samples| - 1]];
    }
  }

  // The least observed score from t on, if there is one.
  lemma {:induction false} NextObserved(samples: seq<Sample>, t: real) returns (c: Option<real>)
    ensures c.None? ==> forall i :: 0 <= i < |samples| ==> !Passes(samples[i], t)
    ensures c.Some? ==> t <= c.value && IsObserved(samples, c.value)
    ensures c.Some? ==> forall i :: 0 <= i < |samples| ==> (Passes(samples[i], t) <==> Passes(samples[i], c.value))
  {
    c := None;
    if samples != [] {
      var n := |samples| - 1;
      c := NextObserved(samples[..n], t);
      if c.Some? {
        var k :| 0 <= k < n && samples[..n][k].top1 == Some(c.value);
        assert samples[k].top1 == Some(c.value);
      }
      if Passes(samples[n], t) && (c.None? || samples[n].top1.value < c.value) {
        c := samples[n].top1;
        assert IsObserved(samples, c.value);
      }
      assert forall i :: 0 <= i < n ==> samples[..n][i] == samples[i];
    }
  }

  // At least as good in recall, and then in refusals.
  predicate AtLeastAsGood(a: Choice, b: Choice) {
    a.recall > b.recall || (a.recall == b.recall && a.overRefusal <= b.overRefusal)
  }

  // Main result: the least feasible observed score is as good as any real threshold that meets the limit.
  lemma ChoiceIsOptimal(samples: seq<Sample>, maxDPass: real, best: real, t: real)
    requires RecallsOk(samples) && Feasible(Pos(samples), Neg(samples), t, maxDPass)
    requires forall c :: IsObserved(samples, c) && Feasible(Pos(samples), Neg(samples), c, maxDPass) ==> best <= c
    ensures AtLeastAsGood(Score(Pos(samples), Neg(samples), best), Score(Pos(samples), Neg(samples), t))
  {
    var pos, neg := Pos(samples), Neg(samples);
    PosRecalls(samples);
    PosNegMembers(samples);
    var c := NextObserved(samples, t);
    if c.Some? {
      forall i | 0 <= i < |pos| ensures Passes(pos[i], t) <==> Passes(pos[i], c.value) {
        assert pos[i] in samples;
      }
      forall i | 0 <= i < |neg| ensures Passes(neg[i], t) <==> Passes(neg[i], c.value) {
        assert neg[i] in samples;
      }
      SameVerdicts(pos, t, c.value);
      SameVerdicts(neg, t, c.value);
      ScoreFalls(pos, neg, best, c.value);
    } else {
      forall i | 0 <= i < |pos| ensures !Passes(pos[i], t) {
        assert pos[i] in samples;
      }
      NothingPasses(pos, t);
      RecallAtLeast(pos, best);
      RefusedAtMost(pos, best);
      RateGrows(0.0, SumRecall(pos, best), |pos|);
      RateGrows(CountRefused(pos, best) as real, |pos| as real, |pos|);
    }
  }
}
