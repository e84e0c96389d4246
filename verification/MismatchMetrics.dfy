/**
 The second implementation of the mismatch metrics: one pair of log-probability streams and a
 mask. It is compared with the budget report, and its gradient-mass metric with its own ESS.
 */
module MismatchMetrics {
  import opened Wrappers
  import opened Contracts
  import opened Weights
  import opened Opbc
  import opened BudgetTheorems

  datatype MismatchSummary = MismatchSummary(
    numTokens: nat,
    deltaMean: real,
    deltaAbsMean: real,
    sequenceLogRatio: real,
    ess: real,
    secondMoment: real,
    clippedFraction: real,
    vetoFraction: real,
    maxAbsLogRatio: real,
    top1pctGradientMass: real)

  /** The differences at the positions whose mask is set. */
  function Deltas(rollout: seq<real>, trainer: seq<real>, mask: seq<int>): seq<real>
    requires |rollout| == |trainer| == |mask|
  {
    if rollout == [] then []
    else
      var n := |rollout| - 1;
      Deltas(rollout[..n], trainer[..n], mask[..n]) + if mask[n] != 0 then [trainer[n] - rollout[n]] else []
  }

  /** max(-c, min(c, d)): the lower bound is applied last, so it wins when the two cross. */
  function PyClip(d: real, clamp: real): real {
    Max(-clamp, Min(clamp, d))
  }

  function PyWeights(deltas: seq<real>, clamp: real, exp: real -> real): (w: seq<real>)
    ensures |w| == |deltas|
    ensures forall i :: 0 <= i < |w| ==> w[i] == exp(PyClip(deltas[i], clamp))
  {
    seq(|deltas|, i requires 0 <= i < |deltas| => exp(PyClip(deltas[i], clamp)))
  }

  function Flags(deltas: seq<real>, bound: real): (f: seq<bool>)
    ensures |f| == |deltas|
  {
    seq(|deltas|, i requires 0 <= i < |deltas| => Abs(deltas[i]) > bound)
  }

  function Magnitudes(deltas: seq<real>): (a: seq<real>)
    ensures |a| == |deltas|
  {
    seq(|deltas|, i requires 0 <= i < |deltas| => Abs(deltas[i]))
  }

  function InsertDescending(x: real, s: seq<real>): seq<real> {
    if s == [] || x >= s[0] then [x] + s else [s[0]] + InsertDescending(x, s[1..])
  }

  function SortDescending(s: seq<real>): seq<real> {
    if s == [] then [] else InsertDescending(s[0], SortDescending(s[1..]))
  }

  function TopCount(n: nat): nat {
    if n / 100 > 1 then n / 100 else 1
  }

  function TopMass(w: seq<real>): real
    requires w != [] && Sum(w) > 0.0
  {
    SortedShape(w);
    Sum(SortDescending(w)[..TopCount(|w|)]) / Sum(w)
  }

  function Summary(deltas: seq<real>, clamp: real, veto: real, exp: real -> real): MismatchSummary
    requires deltas != [] && IsExp(exp)
  {
    var w := PyWeights(deltas, clamp, exp);
    PyWeightsPositive(deltas, clamp, exp);
    PositiveSums(w);
    var n := |deltas| as real;
    MismatchSummary(|deltas|, Sum(deltas) / n, Sum(Magnitudes(deltas)) / n, Sum(deltas), Ess(w), SumSq(w) / n,
                    Count(Flags(deltas, clamp)) as real / n, Count(Flags(deltas, veto)) as real / n, MaxAbs(deltas),
                    TopMass(w))
  }

  function Summarize(rollout: seq<real>, trainer: seq<real>, mask: Option<seq<int>>, clamp: real, veto: real,
                     exp: real -> real): Result<MismatchSummary>
    requires IsExp(exp)
  {
    if |rollout| != |trainer| then Raised(InvalidValue)
    else
      var used := if mask.Some? then mask.value else seq(|rollout|, _ => 1);
      if |used| != |rollout| then Raised(InvalidValue)
      else
        var deltas := Deltas(rollout, trainer, used);
        if deltas == [] then Raised(InvalidValue) else Ok(Summary(deltas, clamp, veto, exp))
  }

  lemma PyWeightsPositive(deltas: seq<real>, clamp: real, exp: real -> real)
    requires IsExp(exp)
    ensures AllPositive(PyWeights(deltas, clamp, exp))
  {
  }

  // ----- sorting

  predicate Descending(s: seq<real>) {
    forall i, j :: 0 <= i < j < |s| ==> s[i] >= s[j]
  }

  lemma {:induction false} InsertMembers(x: real, s: seq<real>)
    ensures multiset(InsertDescending(x, s)) == multiset(s) + multiset{x}
  {
    if s == [] || x >= s[0] {
      assert multiset([x] + s) == multiset(s) + multiset{x};
    } else {
      InsertMembers(x, s[1..]);
      assert s == [s[0]] + s[1..];
    }
  }

  predicate NoneAbove(s: seq<real>, bound: real) {
    forall i :: 0 <= i < |s| ==> s[i] <= bound
  }

  lemma {:induction false} InsertShape(x: real, s: seq<real>)
    requires Descending(s)
    ensures Descending(InsertDescending(x, s))
    ensures forall bound :: NoneAbove(s, bound) && x <= bound ==> NoneAbove(InsertDescending(x, s), bound)
  {
    if s != [] && x < s[0] {
      assert Descending(s[1..]) && NoneAbove(s[1..], s[0]);
      InsertShape(x, s[1..]);
      var r := InsertDescending(x, s[1..]);
      assert NoneAbove(r, s[0]);
      forall bound | NoneAbove(s, bound) && x <= bound ensures NoneAbove(InsertDescending(x, s), bound) {
        assert NoneAbove(s[1..], bound);
      }
    }
  }

  lemma {:induction false} SortShape(s: seq<real>)
    ensures Descending(SortDescending(s)) && multiset(SortDescending(s)) == multiset(s)
  {
    if s == [] {
    } else {
      SortShape(s[1..]);
      InsertShape(s[0], SortDescending(s[1..]));
      InsertMembers(s[0], SortDescending(s[1..]));
      hide InsertDescending;
      assert s == [s[0]] + s[1..];
    }
  }

  lemma {:induction false} SortedShape(s: seq<real>)
    ensures |SortDescending(s)| == |s| && (s != [] ==> TopCount(|s|) <= |s|)
  {
    SortShape(s);
    assert |multiset(SortDescending(s))| == |multiset(s)|;
  }

  lemma CancelOne(a: multiset<real>, b: multiset<real>, x: real)
    ensures a + multiset{x} == b + multiset{x} ==> a == b
    ensures a + multiset{x} <= b + multiset{x} ==> a <= b
  {
    assert (a + multiset{x}) - multiset{x} == a;
    assert (b + multiset{x}) - multiset{x} == b;
  }

  lemma SmallerSize(a: multiset<real>, b: multiset<real>)
    requires a <= b
    ensures |a| <= |b|
  {
    assert b == a + (b - a);
  }

  function Without(s: seq<real>, i: nat): (r: seq<real>)
    requires i < |s|
    ensures |r| == |s| - 1
  {
    s[..i] + s[i + 1..]
  }

  lemma {:induction false} SumRemoved(s: seq<real>, i: nat)
    requires i < |s|
    ensures Sum(s) == s[i] + Sum(Without(s, i)) && SumSq(s) == Square(s[i]) + SumSq(Without(s, i))
    ensures multiset(s) == multiset(Without(s, i)) + multiset{s[i]}
  {
    hide Square;
    SumConcat(s[..i], s[i + 1..]);
    SumConcat(s[..i], s[i..]);
    assert s == s[..i] + s[i..];
    assert s[i..] == [s[i]] + s[i + 1..];
  }

  /** Sums do not depend on the order of the terms. */
  lemma {:induction false} SumPermuted(s: seq<real>, t: seq<real>)
    requires multiset(s) == multiset(t)
    ensures Sum(s) == Sum(t) && SumSq(s) == SumSq(t)
    decreases |s|
  {
    assert |multiset(s)| == |multiset(t)|;
    if s != [] {
      var i := Find(t, s[0]);
      SumPermutedStep(s, t, i);
    } else {
      assert s == t;
    }
  }

  function Find(t: seq<real>, x: real): (i: nat)
    requires x in multiset(t)
    ensures i < |t| && t[i] == x
  {
    assert x in t;
    if t[0] == x then 0 else 1 + Find(t[1..], x)
  }

  lemma {:induction false} SumPermutedStep(s: seq<real>, t: seq<real>, i: nat)
    requires s != [] && i < |t| && t[i] == s[0] && multiset(s) == multiset(t)
    ensures Sum(s) == Sum(t) && SumSq(s) == SumSq(t)
    decreases |s|, 0
  {
    hide Square, Sum, SumSq, Without;
    SumRemoved(t, i);
    SumRemoved(s, 0);
    hide Find;
    CancelOne(multiset(Without(s, 0)), multiset(Without(t, i)), s[0]);
    SumPermuted(Without(s, 0), Without(t, i));
  }

  // ----- the heaviest tokens

  /** No other k of the terms add up to more than the first k of a descending sequence. */
  lemma {:induction false} TopIsHeaviest(s: seq<real>, part: seq<real>)
    requires Descending(s) && multiset(part) <= multiset(s)
    ensures |part| <= |s| && Sum(part) <= Sum(s[..|part|])
    decreases |s|
  {
    hide Without, Find;
    SmallerSize(multiset(part), multiset(s));
    if part == [] {
    } else if s[0] in multiset(part) {
      TopWith(s, part, Find(part, s[0]));
    } else {
      TopWithout(s, part);
    }
  }

  lemma {:induction false} TopWith(s: seq<real>, part: seq<real>, i: nat)
    requires Descending(s) && multiset(part) <= multiset(s) && s != [] && i < |part| <= |s| && part[i] == s[0]
    ensures Sum(part) <= Sum(s[..|part|])
    decreases |s|, 0
  {
    hide Square, Sum, SumSq, Without, Find;
    SumRemoved(part, i);
    RestIsPart(s, part, i);
    TopIsHeaviest(s[1..], Without(part, i));
    FirstOfTop(s, |part|);
  }

  lemma RestIsPart(s: seq<real>, part: seq<real>, i: nat)
    requires multiset(part) <= multiset(s) && s != [] && i < |part| && part[i] == s[0]
    ensures multiset(Without(part, i)) <= multiset(s[1..])
  {
    hide Without, Sum, SumSq;
    SumRemoved(part, i);
    assert s == [s[0]] + s[1..];
    assert multiset(s) == multiset(s[1..]) + multiset{s[0]};
    CancelOne(multiset(Without(part, i)), multiset(s[1..]), s[0]);
  }

  lemma FirstOfTop(s: seq<real>, k: nat)
    requires 0 < k <= |s|
    ensures Sum(s[..k]) == s[0] + Sum(s[1..][..k - 1])
  {
    hide SumSq;
    assert s[..k][1..] == s[1..][..k - 1];
  }

  lemma {:induction false} TopWithout(s: seq<real>, part: seq<real>)
    requires Descending(s) && multiset(part) <= multiset(s) && s != [] && 0 < |part| <= |s| && s[0] !in multiset(part)
    ensures Sum(part) <= Sum(s[..|part|])
    decreases |s|, 0
  {
    var k := |part|;
    assert s == [s[0]] + s[1..];
    assert multiset(part) <= multiset(s[1..]);
    TopIsHeaviest(s[1..], part);
    TopShift(s, k);
  }

  lemma {:induction false} TopShift(s: seq<real>, k: nat)
    requires Descending(s) && 0 < k < |s|
    ensures Sum(s[1..][..k]) <= Sum(s[..k])
  {
    hide SumSq;
    assert s[..k][1..] == s[1..k];
    assert s[1..][..k] == s[1..k] + [s[k]];
    SumConcat(s[1..k], [s[k]]);
    assert Sum([s[k]]) == s[k];
  }

  lemma {:induction false} SumAtLeast(s: seq<real>, v: real)
    requires forall i :: 0 <= i < |s| ==> s[i] >= v
    ensures Sum(s) >= Times(|s| as real, v)
  {
    if s == [] {
      assert Times(0.0, v) == 0.0;
    } else {
      SumAtLeast(s[1..], v);
      OneMore(|s[1..]| as real, v);
      assert |s| as real == |s[1..]| as real + 1.0;
      hide Times;
    }
  }

  lemma {:induction false} SumAtMost(s: seq<real>, v: real)
    requires forall i :: 0 <= i < |s| ==> s[i] <= v
    ensures Sum(s) <= Times(|s| as real, v)
  {
    if s == [] {
      assert Times(0.0, v) == 0.0;
    } else {
      SumAtMost(s[1..], v);
      OneMore(|s[1..]| as real, v);
      assert |s| as real == |s[1..]| as real + 1.0;
      hide Times;
    }
  }

  /** The first k of a descending sequence carry at least their even share. */
  lemma {:induction false} TopShare(s: seq<real>, k: nat)
    requires Descending(s) && k <= |s|
    ensures Times(|s| as real, Sum(s[..k])) >= Times(k as real, Sum(s))
  {
    var top, rest := s[..k], s[k..];
    assert s == top + rest;
    SumConcat(top, rest);
    var v := if k < |s| then s[k] else 0.0;
    if k < |s| {
      SumAtLeast(top, v);
      SumAtMost(rest, v);
      ShareStep(k as real, |rest| as real, Sum(top), Sum(rest), v);
    } else {
      assert rest == [] && top == s;
    }
  }

  lemma ShareStep(k: real, m: real, top: real, rest: real, v: real)
    requires k >= 0.0 && m >= 0.0 && top >= Times(k, v) && rest <= Times(m, v)
    ensures Times(k + m, top) >= Times(k, top + rest)
  {
  }

  lemma {:induction false} TopSquares(w: seq<real>, k: nat)
    requires AllPositive(w) && k <= |w|
    ensures Square(Sum(SortTop(w, k))) <= Times(k as real, SumSq(w))
  {
    hide Square, Times, Unevenness, SortTop, Sum, SumSq;
    var top := SortTop(w, k);
    TopIsPart(w, k);
    Lagrange(top);
    SpreadSign(top);
    CauchyStep(k as real, Sum(top), SumSq(top), SumSq(w) - SumSq(top));
  }

  lemma {:induction false} TopIsPart(w: seq<real>, k: nat)
    requires k <= |w|
    ensures |SortTop(w, k)| == k && SumSq(SortTop(w, k)) <= SumSq(w)
  {
    hide Square, Sum, SumSq, SortDescending;
    SortShape(w);
    SortedShape(w);
    var s := SortDescending(w);
    SumPermuted(s, w);
    assert s == s[..k] + s[k..];
    SumConcat(s[..k], s[k..]);
    SquaresSign(s[k..]);
  }

  function SortTop(w: seq<real>, k: nat): (top: seq<real>)
    requires k <= |w|
  {
    SortedShape(w);
    SortDescending(w)[..k]
  }

  lemma {:induction false} SquaresSign(s: seq<real>)
    ensures SumSq(s) >= 0.0
  {
    hide Square;
    if s == [] {
    } else {
      SquareSign(s[0]);
      SquaresSign(s[1..]);
    }
  }

  lemma CauchyStep(k: real, top: real, topSquares: real, restSquares: real)
    requires k >= 0.0 && restSquares >= 0.0 && Unevenness(k, top, topSquares) >= 0.0
    ensures Square(top) <= Times(k, topSquares + restSquares)
  {
  }

  lemma MassBounds(n: real, k: real, total: real, top: real, squares: real)
    requires n > 0.0 && k >= 0.0 && total > 0.0 && squares > 0.0
    requires Times(n, top) >= Times(k, total) && Square(top) <= Times(k, squares)
    ensures top / total >= k / n
    ensures Times(EssOf(n, total, squares), Square(top / total)) <= k / n
  {
  }

  lemma {:induction false} TopMassBounds(w: seq<real>)
    requires w != [] && AllPositive(w)
    ensures Sum(w) > 0.0 && SumSq(w) > 0.0
    ensures var k := TopCount(|w|);
      && TopMass(w) >= k as real / |w| as real
      && Times(Ess(w), Square(TopMass(w))) <= k as real / |w| as real
      && forall part: seq<real> :: |part| == k && multiset(part) <= multiset(w) ==> TopMass(w) >= Sum(part) / Sum(w)
  {
    hide Square, Times, EssOf, Sum, SumSq, SortDescending;
    PositiveSums(w);
    SortedShape(w);
    SortShape(w);
    var s, k := SortDescending(w), TopCount(|w|);
    SumPermuted(s, w);
    TopShare(s, k);
    TopSquares(w, k);
    MassBounds(|w| as real, k as real, Sum(w), Sum(s[..k]), SumSq(w));
    forall part: seq<real> | |part| == k && multiset(part) <= multiset(w)
      ensures TopMass(w) >= Sum(part) / Sum(w)
    {
      TopIsHeaviest(s, part);
      SameDivisor(Sum(part), Sum(s[..k]), Sum(w));
    }
  }

  lemma SameDivisor(x: real, y: real, d: real)
    requires d > 0.0 && x <= y
    ensures x / d <= y / d
  {
  }

  /**
   Concentration: the heaviest one per cent of the tokens (at least one token) carry at least
   their even share and at least the share of any other k tokens; and the effective sample size
   caps their share: ess * mass^2 <= k/n.
   */
  lemma {:induction false} ConcentrationBound(rollout: seq<real>, trainer: seq<real>, mask: Option<seq<int>>,
                                              clamp: real, veto: real, exp: real -> real)
    requires IsExp(exp) && Summarize(rollout, trainer, mask, clamp, veto, exp).Ok?
    ensures var r := Summarize(rollout, trainer, mask, clamp, veto, exp).value;
      && r.numTokens > 0
      && var k, n := TopCount(r.numTokens) as real, r.numTokens as real;
      && Times(r.ess, Square(r.top1pctGradientMass)) <= k / n <= r.top1pctGradientMass
    ensures var used := if mask.Some? then mask.value else seq(|rollout|, _ => 1);
      && |rollout| == |trainer| == |used|
      && var r, w := Summarize(rollout, trainer, mask, clamp, veto, exp).value,
                     PyWeights(Deltas(rollout, trainer, used), clamp, exp);
      && |w| == r.numTokens && Sum(w) > 0.0
      && forall part: seq<real> :: |part| == TopCount(|w|) && multiset(part) <= multiset(w) ==>
           r.top1pctGradientMass >= Sum(part) / Sum(w)
  {
    hide Square, Times, EssOf, Sum, SumSq, SortDescending, IsExp, AllPositive;
    var used := if mask.Some? then mask.value else seq(|rollout|, _ => 1);
    var deltas := Deltas(rollout, trainer, used);
    PyWeightsPositive(deltas, clamp, exp);
    TopMassBounds(PyWeights(deltas, clamp, exp));
  }

  lemma {:induction false} MagnitudeSums(d: seq<real>)
    requires d != []
    ensures Abs(Sum(d)) <= Sum(Magnitudes(d)) <= Times(|d| as real, MaxAbs(d))
  {
    SumAtMost(Magnitudes(d), MaxAbs(d));
    hide Times, MaxAbs;
    SumOfMagnitudes(d);
  }

  lemma {:induction false} SumOfMagnitudes(d: seq<real>)
    ensures Abs(Sum(d)) <= Sum(Magnitudes(d))
  {
    if d == [] {
    } else {
      SumOfMagnitudes(d[1..]);
      assert Magnitudes(d)[1..] == Magnitudes(d[1..]);
    }
  }

  /**
   The mean difference is the sequence log-ratio per token; the mean magnitude lies between its size
   and the largest one.
   */
  lemma {:induction false} MeansAreBracketed(rollout: seq<real>, trainer: seq<real>, mask: Option<seq<int>>,
                                             clamp: real, veto: real, exp: real -> real)
    requires IsExp(exp) && Summarize(rollout, trainer, mask, clamp, veto, exp).Ok?
    ensures var r := Summarize(rollout, trainer, mask, clamp, veto, exp).value;
      && Times(r.deltaMean, r.numTokens as real) == r.sequenceLogRatio
      && Abs(r.deltaMean) <= r.deltaAbsMean <= r.maxAbsLogRatio
      && (mask.None? ==> r.numTokens == |rollout| && r.sequenceLogRatio == Sum(trainer) - Sum(rollout))
  {
    hide IsExp, EssOf, SumSq, Sum, Square, Times, Flags, TopMass, Magnitudes, Abs, MaxAbs;
    var used := if mask.Some? then mask.value else seq(|rollout|, _ => 1);
    var d := Deltas(rollout, trainer, used);
    MagnitudeSums(d);
    MeanBracket(Sum(d), Sum(Magnitudes(d)), |d| as real, MaxAbs(d));
    if mask.None? {
      AllDeltas(rollout, trainer, used);
    }
  }

  lemma MeanBracket(total: real, magnitudes: real, n: real, largest: real)
    requires n > 0.0 && Abs(total) <= magnitudes <= Times(n, largest)
    ensures Times(total / n, n) == total && Abs(total / n) <= magnitudes / n <= largest
  {
    var x := total / n;
    assert x * n == total;
    QuotientBounds(magnitudes, n, largest);
    QuotientBounds(magnitudes, n, x);
    QuotientBounds(magnitudes, n, -x);
    assert (-x) * n == -total;
  }

  lemma {:induction false} AllDeltas(rollout: seq<real>, trainer: seq<real>, mask: seq<int>)
    requires |rollout| == |trainer| == |mask| && forall i :: 0 <= i < |mask| ==> mask[i] != 0
    ensures var d := Deltas(rollout, trainer, mask); |d| == |rollout| && Sum(d) == Sum(trainer) - Sum(rollout)
  {
    hide SumSq;
    if rollout == [] {
    } else {
      var n := |rollout| - 1;
      AllDeltas(rollout[..n], trainer[..n], mask[..n]);
      SumConcat(Deltas(rollout[..n], trainer[..n], mask[..n]), [trainer[n] - rollout[n]]);
      SumConcat(trainer[..n], [trainer[n]]);
      SumConcat(rollout[..n], [rollout[n]]);
      assert trainer == trainer[..n] + [trainer[n]] && rollout == rollout[..n] + [rollout[n]];
      OneTerm(trainer[n] - rollout[n]);
      OneTerm(trainer[n]);
      OneTerm(rollout[n]);
      hide Sum;
    }
  }

  lemma OneTerm(x: real)
    ensures Sum([x]) == x
  {
    assert [x][1..] == [];
  }
}
