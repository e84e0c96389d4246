/** What a mismatch summary holds, in the two streams and the mask it is computed from. */
module MismatchLaws {
  import opened Wrappers
  import opened Weights
  import opened Opbc
  import opened BudgetLaws
  import opened MismatchMetrics

  /** Where a mask is set. */
  function MaskPositions(mask: seq<int>): (p: seq<nat>)
    ensures forall i, j :: 0 <= i < j < |p| ==> p[i] < p[j]
    ensures forall i :: 0 <= i < |p| ==> p[i] < |mask| && mask[p[i]] != 0
    ensures forall k | 0 <= k < |mask| && mask[k] != 0 :: k in p
  {
    if mask == [] then []
    else
      var n := |mask| - 1;
      MaskPositions(mask[..n]) + if mask[n] != 0 then [n] else []
  }

  /** The difference at each set position: trainer less rollout. */
  ghost predicate AreDeltas(d: seq<real>, rollout: seq<real>, trainer: seq<real>, positions: seq<nat>) {
    && |d| == |positions| && |rollout| == |trainer|
    && forall i :: 0 <= i < |d| ==> positions[i] < |rollout| && d[i] == trainer[positions[i]] - rollout[positions[i]]
  }

  lemma {:induction false} DeltasLaw(rollout: seq<real>, trainer: seq<real>, mask: seq<int>)
    requires |rollout| == |trainer| == |mask|
    ensures AreDeltas(Deltas(rollout, trainer, mask), rollout, trainer, MaskPositions(mask))
  {
    if rollout == [] {
    } else {
      hide AreDeltas;
      var n := |rollout| - 1;
      DeltasLaw(rollout[..n], trainer[..n], mask[..n]);
      DeltasLast(Deltas(rollout[..n], trainer[..n], mask[..n]), rollout, trainer, MaskPositions(mask[..n]));
    }
  }

  lemma DeltasLast(d: seq<real>, rollout: seq<real>, trainer: seq<real>, positions: seq<nat>)
    requires rollout != [] && |rollout| == |trainer|
    requires AreDeltas(d, rollout[..|rollout| - 1], trainer[..|rollout| - 1], positions)
    ensures var n := |rollout| - 1;
      && AreDeltas(d + [], rollout, trainer, positions + [])
      && AreDeltas(d + [trainer[n] - rollout[n]], rollout, trainer, positions + [n])
  {
  }

  // ----- the figures

  ghost predicate AreMagnitudes(a: seq<real>, d: seq<real>) {
    |a| == |d| && forall i :: 0 <= i < |d| ==> a[i] >= 0.0 && (a[i] == d[i] || a[i] == -d[i])
  }

  /** The weight of a token: its clipped difference exponentiated, the lower bound winning when the two cross. */
  ghost predicate AreStreamWeights(w: seq<real>, d: seq<real>, clamp: real, exp: real -> real) {
    && |w| == |d|
    && forall i :: 0 <= i < |d| ==>
         w[i] == exp(if clamp < 0.0 || d[i] < -clamp then -clamp else if d[i] > clamp then clamp else d[i])
  }

  /** `mass` is the share of some `k` of the weights, and no `k` of them have a larger one. */
  ghost predicate HeaviestShare(mass: real, w: seq<real>, k: nat) {
    && (exists part: seq<real> :: |part| == k && multiset(part) <= multiset(w) && mass * Sum(w) == Sum(part))
    && forall part: seq<real> :: |part| == k && multiset(part) <= multiset(w) ==> mass * Sum(w) >= Sum(part)
  }

  ghost predicate SumsUp(r: MismatchSummary, d: seq<real>) {
    && r.numTokens == |d| && r.sequenceLogRatio == Sum(d) && r.deltaMean * |d| as real == Sum(d)
    && (exists a :: AreMagnitudes(a, d) && r.deltaAbsMean * |d| as real == Sum(a))
    && (forall i :: 0 <= i < |d| ==> -r.maxAbsLogRatio <= d[i] <= r.maxAbsLogRatio)
    && (r.maxAbsLogRatio in d || -r.maxAbsLogRatio in d)
  }

  ghost predicate WeighsUp(r: MismatchSummary, w: seq<real>) {
    && r.secondMoment * |w| as real == SumSq(w)
    && r.ess * (|w| as real * SumSq(w)) == Square(Sum(w))
    && HeaviestShare(r.top1pctGradientMass, w, if |w| >= 200 then |w| / 100 else 1)
  }

  lemma {:induction false} CountCounts(f: seq<bool>)
    ensures Count(f) == |set i | 0 <= i < |f| && f[i]|
  {
    var all := set i | 0 <= i < |f| && f[i];
    if f == [] {
      assert all == {};
    } else {
      var n := |f| - 1;
      CountCounts(f[..n]);
      CountLast(f);
      var before := set i | 0 <= i < |f[..n]| && f[..n][i];
      assert all == if f[n] then before + {n} else before;
    }
  }

  lemma {:induction false} CountLast(f: seq<bool>)
    requires f != []
    ensures var n := |f| - 1; Count(f) == Count(f[..n]) + if f[n] then 1 else 0
  {
    if |f| > 1 {
      CountLast(f[1..]);
      assert f[1..][..|f| - 2] == f[..|f| - 1][1..];
    }
  }

  lemma FlagCount(d: seq<real>, bound: real)
    ensures Count(Flags(d, bound)) == |set i | 0 <= i < |d| && (d[i] > bound || -d[i] > bound)|
  {
    hide Count;
    var f := Flags(d, bound);
    CountCounts(f);
    assert (set i | 0 <= i < |f| && f[i]) == set i | 0 <= i < |d| && (d[i] > bound || -d[i] > bound);
  }

  lemma FlagShare(d: seq<real>, bound: real)
    requires d != []
    ensures ShareBeyond(Count(Flags(d, bound)) as real / |d| as real, d, bound)
  {
    hide Count, Flags;
    FlagCount(d, bound);
    Rejoin(Count(Flags(d, bound)) as real, |d| as real);
  }

  lemma {:induction false} SumsLaw(d: seq<real>, clamp: real, veto: real, exp: real -> real)
    requires d != [] && IsExp(exp)
    ensures SumsUp(Summary(d, clamp, veto, exp), d)
  {
    hide IsExp, EssOf, SumSq, Sum, Square, Flags, TopMass, MaxAbs, Count;
    LargestLaw(d);
    Rejoin(Sum(d), |d| as real);
    Rejoin(Sum(Magnitudes(d)), |d| as real);
    assert AreMagnitudes(Magnitudes(d), d);
  }

  lemma PrefixIsPart(s: seq<real>, w: seq<real>, k: nat)
    requires k <= |s| && multiset(s) == multiset(w)
    ensures multiset(s[..k]) <= multiset(w)
  {
    assert s == s[..k] + s[k..];
  }

  lemma {:induction false} TopIsAPart(w: seq<real>)
    requires w != []
    ensures var k := TopCount(|w|);
      && |SortTop(w, k)| == k && multiset(SortTop(w, k)) <= multiset(w)
      && forall part: seq<real> :: |part| == k && multiset(part) <= multiset(w) ==> Sum(SortTop(w, k)) >= Sum(part)
  {
    hide Sum, SumSq, SortDescending, TopCount, Descending;
    SortedShape(w);
    SortShape(w);
    var k := TopCount(|w|);
    PrefixIsPart(SortDescending(w), w, k);
    forall part: seq<real> | |part| == k && multiset(part) <= multiset(w) ensures Sum(SortTop(w, k)) >= Sum(part) {
      TopIsHeaviest(SortDescending(w), part);
    }
  }

  lemma {:induction false} TopLaw(w: seq<real>)
    requires w != [] && AllPositive(w)
    ensures Sum(w) > 0.0 && HeaviestShare(TopMass(w), w, if |w| >= 200 then |w| / 100 else 1)
  {
    hide Sum, SumSq, SortTop, SortDescending, AllPositive;
    PositiveSums(w);
    var top := SortTop(w, TopCount(|w|));
    TopIsAPart(w);
    MassIsTop(w);
    Rejoin(Sum(top), Sum(w));
  }

  lemma MassIsTop(w: seq<real>)
    requires w != [] && Sum(w) > 0.0
    ensures TopCount(|w|) <= |w| && TopMass(w) == Sum(SortTop(w, TopCount(|w|))) / Sum(w)
  {
    SortedShape(w);
  }

  lemma {:induction false} WeighsLaw(d: seq<real>, clamp: real, veto: real, exp: real -> real)
    requires d != [] && IsExp(exp)
    ensures AreStreamWeights(PyWeights(d, clamp, exp), d, clamp, exp)
    ensures WeighsUp(Summary(d, clamp, veto, exp), PyWeights(d, clamp, exp))
  {
    hide IsExp, EssOf, SumSq, Sum, Square, Flags, TopMass, MaxAbs, Count, HeaviestShare, AllPositive, Magnitudes;
    var w := PyWeights(d, clamp, exp);
    PyWeightsPositive(d, clamp, exp);
    PositiveSums(w);
    TopLaw(w);
    Rejoin(SumSq(w), |w| as real);
    EssRejoined(|w| as real, Sum(w), SumSq(w));
  }

  /** A summary's figures: sums and extremes of the differences, shares beyond the bounds, facts of the weights. */
  ghost predicate SummaryOf(r: MismatchSummary, d: seq<real>, clamp: real, veto: real, exp: real -> real) {
    && SumsUp(r, d)
    && (exists w :: AreStreamWeights(w, d, clamp, exp) && WeighsUp(r, w))
    && ShareBeyond(r.clippedFraction, d, clamp) && ShareBeyond(r.vetoFraction, d, veto)
  }

  lemma {:induction false} SummaryLaw(d: seq<real>, clamp: real, veto: real, exp: real -> real)
    requires d != [] && IsExp(exp)
    ensures SummaryOf(Summary(d, clamp, veto, exp), d, clamp, veto, exp)
  {
    hide IsExp, SumsUp, WeighsUp, AreStreamWeights, ShareBeyond, Sum, SumSq, EssOf, TopMass, Count, Flags;
    SumsLaw(d, clamp, veto, exp);
    WeighsLaw(d, clamp, veto, exp);
    FlagShare(d, clamp);
    FlagShare(d, veto);
  }

  /** The positions that take part: those the mask is set at, or all of them where there is no mask. */
  ghost predicate Participates(mask: Option<seq<int>>, n: nat, k: nat) {
    k < n && (mask.Some? ==> k < |mask.value| && mask.value[k] != 0)
  }

  ghost predicate Participants(p: seq<nat>, mask: Option<seq<int>>, n: nat) {
    && (forall i, j :: 0 <= i < j < |p| ==> p[i] < p[j])
    && forall k: nat :: k in p <==> Participates(mask, n, k)
  }

  lemma {:induction false} UsedLaw(mask: Option<seq<int>>, n: nat)
    requires mask.Some? ==> |mask.value| == n
    ensures Participants(MaskPositions(if mask.Some? then mask.value else seq(n, _ => 1)), mask, n)
  {
    hide MaskPositions, Participates;
    var used := if mask.Some? then mask.value else seq(n, _ => 1);
    var p := MaskPositions(used);
    forall k: nat ensures k in p <==> Participates(mask, n, k) {
      UsedAt(mask, n, k);
      if Participates(mask, n, k) {
        assert used[k] != 0;
      }
    }
  }

  lemma UsedAt(mask: Option<seq<int>>, n: nat, k: nat)
    requires mask.Some? ==> |mask.value| == n
    ensures var used := if mask.Some? then mask.value else seq(n, _ => 1);
      |used| == n && (Participates(mask, n, k) <==> k < n && used[k] != 0)
  {
  }

  /**
   Two streams are refused exactly when their lengths or the mask's differ or no position takes part;
   otherwise the figures are those of the differences at the positions that do.
   */
  lemma {:induction false} SummarizeLaw(rollout: seq<real>, trainer: seq<real>, mask: Option<seq<int>>, clamp: real,
                                        veto: real, exp: real -> real)
    requires IsExp(exp)
    ensures var r := Summarize(rollout, trainer, mask, clamp, veto, exp);
      if |rollout| != |trainer| || (mask.Some? && |mask.value| != |rollout|) then r == Raised(InvalidValue)
      else if forall k: nat :: !Participates(mask, |rollout|, k) then r == Raised(InvalidValue)
      else
        && r.Ok?
        && exists d, p ::
             && Participants(p, mask, |rollout|) && AreDeltas(d, rollout, trainer, p)
             && SummaryOf(r.value, d, clamp, veto, exp)
  {
    hide IsExp, Summary, SummaryOf, MaskPositions, Deltas, Participates;
    if |rollout| == |trainer| && (mask.Some? ==> |mask.value| == |rollout|) {
      var used := if mask.Some? then mask.value else seq(|rollout|, _ => 1);
      UsedLaw(mask, |rollout|);
      DeltasLaw(rollout, trainer, used);
      var d, p := Deltas(rollout, trainer, used), MaskPositions(used);
      if d != [] {
        assert p[0] in p;
        SummaryLaw(d, clamp, veto, exp);
      }
    }
  }
}
