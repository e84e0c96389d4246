/** Router mismatch between two traces of one token stream, and why its rates are distances. */
module RouterMismatch {
  import opened Wrappers
  import opened Weights

  /** Expert ids by token, layer and rank; the expert of rank 0 is the top choice. */
  datatype RouterTrace = RouterTrace(numLayers: int, numExperts: int, topK: int, expertIds: seq<seq<seq<int>>>) {
    ghost predicate Valid() {
      && numLayers > 0 && numExperts > 0 && 0 < topK <= numExperts
      && (forall t :: 0 <= t < |expertIds| ==> |expertIds[t]| == numLayers)
      && (forall t, l :: 0 <= t < |expertIds| && 0 <= l < numLayers ==> |expertIds[t][l]| == topK)
      && forall t, l, k :: 0 <= t < |expertIds| && 0 <= l < numLayers && 0 <= k < topK ==>
           0 <= expertIds[t][l][k] < numExperts
    }
  }

  datatype RouterMetrics = RouterMetrics(
    numTokens: nat,
    routerFlipRate: real,
    tokenExpertDisagreementRate: real,
    layerFlipRates: seq<real>)

  ghost predicate SameShape(a: RouterTrace, b: RouterTrace) {
    && a.Valid() && b.Valid()
    && a.numLayers == b.numLayers && a.numExperts == b.numExperts && a.topK == b.topK
    && |a.expertIds| == |b.expertIds|
  }

  function Experts(s: seq<int>): set<int> {
    set e | e in s
  }

  ghost predicate TopFlips(a: RouterTrace, b: RouterTrace, t: nat, l: nat)
    requires SameShape(a, b) && t < |a.expertIds| && l < a.numLayers
  {
    a.expertIds[t][l][0] != b.expertIds[t][l][0]
  }

  ghost predicate SetsDiffer(a: RouterTrace, b: RouterTrace, t: nat, l: nat)
    requires SameShape(a, b) && t < |a.expertIds| && l < a.numLayers
  {
    Experts(a.expertIds[t][l]) != Experts(b.expertIds[t][l])
  }

  ghost predicate TokenDisagrees(a: RouterTrace, b: RouterTrace, t: nat, layers: nat)
    requires SameShape(a, b) && t < |a.expertIds| && layers <= a.numLayers
  {
    exists l: nat :: l < layers && SetsDiffer(a, b, t, l)
  }

  /** Among the first `n` tokens, those whose top choice at layer `l` flips. */
  ghost function Flips(a: RouterTrace, b: RouterTrace, n: nat, l: nat): nat
    requires SameShape(a, b) && n <= |a.expertIds| && l < a.numLayers
  {
    if n == 0 then 0 else Flips(a, b, n - 1, l) + if TopFlips(a, b, n - 1, l) then 1 else 0
  }

  /** Among the first `n` tokens, those routed to a different set of experts at some layer. */
  ghost function Disagreements(a: RouterTrace, b: RouterTrace, n: nat): nat
    requires SameShape(a, b) && n <= |a.expertIds|
  {
    if n == 0 then 0 else Disagreements(a, b, n - 1) + if TokenDisagrees(a, b, n - 1, a.numLayers) then 1 else 0
  }

  /** Flips of the first `n` tokens over the first `layers` layers. */
  ghost function AllFlips(a: RouterTrace, b: RouterTrace, n: nat, layers: nat): nat
    requires SameShape(a, b) && n <= |a.expertIds| && layers <= a.numLayers
  {
    if layers == 0 then 0 else AllFlips(a, b, n, layers - 1) + Flips(a, b, n, layers - 1)
  }

  function Rate(count: nat, total: nat): real
    requires total > 0
  {
    count as real / total as real
  }

  ghost function LayerRate(a: RouterTrace, b: RouterTrace, l: nat): real
    requires SameShape(a, b) && a.expertIds != [] && l < a.numLayers
  {
    Rate(Flips(a, b, |a.expertIds|, l), |a.expertIds|)
  }

  ghost function FlipRate(a: RouterTrace, b: RouterTrace): real
    requires SameShape(a, b) && a.expertIds != []
  {
    PositiveCount(|a.expertIds|, a.numLayers);
    Rate(AllFlips(a, b, |a.expertIds|, a.numLayers), |a.expertIds| * a.numLayers)
  }

  ghost function TokenRate(a: RouterTrace, b: RouterTrace): real
    requires SameShape(a, b) && a.expertIds != []
  {
    Rate(Disagreements(a, b, |a.expertIds|), |a.expertIds|)
  }

  lemma PositiveCount(tokens: nat, layers: nat)
    requires tokens > 0 && layers > 0
    ensures tokens * layers > 0
  {
  }

  ghost predicate Comparable(a: RouterTrace, b: RouterTrace)
    requires a.Valid() && b.Valid()
  {
    SameShape(a, b) && a.expertIds != []
  }

  function Total(counts: seq<nat>): nat {
    if counts == [] then 0 else Total(counts[..|counts| - 1]) + counts[|counts| - 1]
  }

  /** Traces of different shape, or without tokens, are refused; otherwise the counts of the nested loops as rates. */
  method ComputeRouterMismatch(rollout: RouterTrace, trainer: RouterTrace) returns (r: Result<RouterMetrics>)
    requires rollout.Valid() && trainer.Valid()
    ensures r.Ok? <==> Comparable(rollout, trainer)
    ensures r.Raised? ==> r == Raised(InvalidValue)
    ensures r.Ok? ==>
      && r.value.numTokens == |rollout.expertIds|
      && r.value.routerFlipRate == FlipRate(rollout, trainer)
      && r.value.tokenExpertDisagreementRate == TokenRate(rollout, trainer)
      && |r.value.layerFlipRates| == rollout.numLayers
      && forall l :: 0 <= l < rollout.numLayers ==> r.value.layerFlipRates[l] == LayerRate(rollout, trainer, l)
  {
    if rollout.numLayers != trainer.numLayers || rollout.numExperts != trainer.numExperts
      || rollout.topK != trainer.topK {
      return Raised(InvalidValue);
    }
    if |rollout.expertIds| != |trainer.expertIds| {
      return Raised(InvalidValue);
    }
    var numTokens := |rollout.expertIds|;
    var numLayers := rollout.numLayers;
    if numTokens == 0 {
      return Raised(InvalidValue);
    }
    var layerFlipCounts, disagreements := CountFlips(rollout, trainer);
    PositiveCount(numTokens, numLayers);
    LayerTotals(rollout, trainer, layerFlipCounts);
    var layerFlipRates := seq(numLayers, l requires 0 <= l < numLayers => Rate(layerFlipCounts[l], numTokens));
    r := Ok(RouterMetrics(numTokens, Rate(Total(layerFlipCounts), numTokens * numLayers),
                          Rate(disagreements, numTokens), layerFlipRates));
  }

  /** The nested counting loops over tokens and layers. */
  method CountFlips(rollout: RouterTrace, trainer: RouterTrace) returns (counts: seq<nat>, disagreements: nat)
    requires SameShape(rollout, trainer)
    ensures |counts| == rollout.numLayers
    ensures forall l :: 0 <= l < rollout.numLayers ==> counts[l] == Flips(rollout, trainer, |rollout.expertIds|, l)
    ensures disagreements == Disagreements(rollout, trainer, |rollout.expertIds|)
  {
    var numLayers := rollout.numLayers;
    var layerFlipCounts := new nat[numLayers](_ => 0);
    disagreements := 0;
    for t := 0 to |rollout.expertIds|
      invariant forall l :: 0 <= l < numLayers ==> layerFlipCounts[l] == Flips(rollout, trainer, t, l)
      invariant disagreements == Disagreements(rollout, trainer, t)
    {
      var tokenDisagrees := false;
      for l := 0 to numLayers
        invariant forall i :: 0 <= i < l ==> layerFlipCounts[i] == Flips(rollout, trainer, t + 1, i)
        invariant forall i :: l <= i < numLayers ==> layerFlipCounts[i] == Flips(rollout, trainer, t, i)
        invariant tokenDisagrees <==> TokenDisagrees(rollout, trainer, t, l)
      {
        var roll, train := rollout.expertIds[t][l], trainer.expertIds[t][l];
        if roll[0] != train[0] {
          layerFlipCounts[l] := layerFlipCounts[l] + 1;
        }
        if Experts(roll) != Experts(train) {
          assert SetsDiffer(rollout, trainer, t, l);
          tokenDisagrees := true;
        }
      }
      if tokenDisagrees {
        disagreements := disagreements + 1;
      }
    }
    counts := layerFlipCounts[..];
  }

  lemma {:induction false} LayerTotals(a: RouterTrace, b: RouterTrace, counts: seq<nat>)
    requires SameShape(a, b) && |counts| <= a.numLayers
    requires forall l :: 0 <= l < |counts| ==> counts[l] == Flips(a, b, |a.expertIds|, l)
    ensures Total(counts) == AllFlips(a, b, |a.expertIds|, |counts|)
  {
    if counts == [] {
    } else {
      LayerTotals(a, b, counts[..|counts| - 1]);
    }
  }

  // ----- distances on counts

  /** Equal traces do not differ, the order of the two does not matter, and a detour is never shorter. */
  lemma {:induction false} FlipsDistance(a: RouterTrace, b: RouterTrace, c: RouterTrace, n: nat, l: nat)
    requires SameShape(a, b) && SameShape(b, c) && n <= |a.expertIds| && l < a.numLayers
    ensures Flips(a, a, n, l) == 0 && Flips(a, b, n, l) == Flips(b, a, n, l)
    ensures Flips(a, c, n, l) <= Flips(a, b, n, l) + Flips(b, c, n, l)
    ensures Flips(a, b, n, l) == 0 <==> forall t: nat :: t < n ==> !TopFlips(a, b, t, l)
    ensures Flips(a, b, n, l) <= n
  {
    if n == 0 {
    } else {
      FlipsDistance(a, b, c, n - 1, l);
    }
  }

  lemma {:induction false} DisagreementsDistance(a: RouterTrace, b: RouterTrace, c: RouterTrace, n: nat)
    requires SameShape(a, b) && SameShape(b, c) && n <= |a.expertIds|
    ensures Disagreements(a, a, n) == 0 && Disagreements(a, b, n) == Disagreements(b, a, n)
    ensures Disagreements(a, c, n) <= Disagreements(a, b, n) + Disagreements(b, c, n)
    ensures Disagreements(a, b, n) <= n
  {
    if n == 0 {
    } else {
      DisagreementsDistance(a, b, c, n - 1);
      var t, k := n - 1, a.numLayers;
      TokenDistance(a, b, c, t);
    }
  }

  lemma TokenDistance(a: RouterTrace, b: RouterTrace, c: RouterTrace, t: nat)
    requires SameShape(a, b) && SameShape(b, c) && t < |a.expertIds|
    ensures !TokenDisagrees(a, a, t, a.numLayers)
    ensures TokenDisagrees(a, b, t, a.numLayers) <==> TokenDisagrees(b, a, t, a.numLayers)
    ensures TokenDisagrees(a, c, t, a.numLayers) ==>
      TokenDisagrees(a, b, t, a.numLayers) || TokenDisagrees(b, c, t, a.numLayers)
  {
    if TokenDisagrees(a, b, t, a.numLayers) {
      var l: nat :| l < a.numLayers && SetsDiffer(a, b, t, l);
      assert SetsDiffer(b, a, t, l);
    }
    if TokenDisagrees(b, a, t, a.numLayers) {
      var l: nat :| l < a.numLayers && SetsDiffer(b, a, t, l);
      assert SetsDiffer(a, b, t, l);
    }
    if TokenDisagrees(a, c, t, a.numLayers) {
      var l: nat :| l < a.numLayers && SetsDiffer(a, c, t, l);
      assert SetsDiffer(a, b, t, l) || SetsDiffer(b, c, t, l);
    }
  }

  lemma {:induction false} AllFlipsDistance(a: RouterTrace, b: RouterTrace, c: RouterTrace, layers: nat)
    requires SameShape(a, b) && SameShape(b, c) && layers <= a.numLayers
    ensures AllFlips(a, a, |a.expertIds|, layers) == 0
    ensures AllFlips(a, b, |a.expertIds|, layers) == AllFlips(b, a, |a.expertIds|, layers)
    ensures AllFlips(a, c, |a.expertIds|, layers) <=
      AllFlips(a, b, |a.expertIds|, layers) + AllFlips(b, c, |a.expertIds|, layers)
    ensures AllFlips(a, b, |a.expertIds|, layers) <= |a.expertIds| * layers
  {
    if layers == 0 {
    } else {
      AllFlipsDistance(a, b, c, layers - 1);
      FlipsDistance(a, b, c, |a.expertIds|, layers - 1);
      OneMoreLayer(|a.expertIds|, layers);
    }
  }

  lemma OneMoreLayer(tokens: nat, layers: nat)
    requires layers > 0
    ensures tokens * layers == tokens * (layers - 1) + tokens
  {
  }

  // ----- distances on rates

  lemma RateTriangle(x: nat, y: nat, z: nat, total: nat)
    requires total > 0 && x <= y + z
    ensures Rate(x, total) <= Rate(y, total) + Rate(z, total)
  {
  }

  lemma RateRange(x: nat, total: nat)
    requires total > 0 && x <= total
    ensures 0.0 <= Rate(x, total) <= 1.0 && (x == 0 <==> Rate(x, total) == 0.0)
  {
  }

  /** All three kinds of rate are pseudometrics with values in [0, 1] on traces of one shape. */
  lemma {:induction false} RatesAreDistances(a: RouterTrace, b: RouterTrace, c: RouterTrace)
    requires SameShape(a, b) && SameShape(b, c) && a.expertIds != []
    ensures FlipRate(a, a) == 0.0 && TokenRate(a, a) == 0.0
    ensures FlipRate(a, b) == FlipRate(b, a) && TokenRate(a, b) == TokenRate(b, a)
    ensures FlipRate(a, c) <= FlipRate(a, b) + FlipRate(b, c) && TokenRate(a, c) <= TokenRate(a, b) + TokenRate(b, c)
    ensures 0.0 <= FlipRate(a, b) <= 1.0 && 0.0 <= TokenRate(a, b) <= 1.0
    ensures forall l: nat :: l < a.numLayers ==>
      && LayerRate(a, a, l) == 0.0 && LayerRate(a, b, l) == LayerRate(b, a, l)
      && LayerRate(a, c, l) <= LayerRate(a, b, l) + LayerRate(b, c, l) && 0.0 <= LayerRate(a, b, l) <= 1.0
  {
    hide RouterTrace.Valid, Rate, TopFlips, AllFlips, Disagreements, Flips;
    var n, k := |a.expertIds|, a.numLayers;
    LayersExist(a);
    PositiveCount(n, k);
    AllFlipsDistance(a, b, c, k);
    RateTriangle(AllFlips(a, c, |a.expertIds|, k), AllFlips(a, b, |a.expertIds|, k), AllFlips(b, c, |a.expertIds|, k),
                 n * k);
    RateRange(AllFlips(a, b, |a.expertIds|, k), n * k);
    RateRange(0, n * k);
    DisagreementsDistance(a, b, c, n);
    RateTriangle(Disagreements(a, c, n), Disagreements(a, b, n), Disagreements(b, c, n), n);
    RateRange(Disagreements(a, b, n), n);
    RateRange(0, n);
    forall l: nat | l < k
      ensures LayerRate(a, a, l) == 0.0 && LayerRate(a, b, l) == LayerRate(b, a, l)
        && LayerRate(a, c, l) <= LayerRate(a, b, l) + LayerRate(b, c, l) && 0.0 <= LayerRate(a, b, l) <= 1.0
    {
      FlipsDistance(a, b, c, n, l);
      RateTriangle(Flips(a, c, n, l), Flips(a, b, n, l), Flips(b, c, n, l), n);
      RateRange(Flips(a, b, n, l), n);
    }
  }

  lemma LayersExist(a: RouterTrace)
    requires a.Valid()
    ensures a.numLayers > 0
  {
  }

  // ----- how the rates are related

  ghost function LayerRates(a: RouterTrace, b: RouterTrace, layers: nat): seq<real>
    requires SameShape(a, b) && a.expertIds != [] && layers <= a.numLayers
  {
    if layers == 0 then [] else [LayerRate(a, b, layers - 1)] + LayerRates(a, b, layers - 1)
  }

  lemma {:induction false} LayerRatesSum(a: RouterTrace, b: RouterTrace, layers: nat)
    requires SameShape(a, b) && a.expertIds != [] && layers <= a.numLayers
    ensures Times(Sum(LayerRates(a, b, layers)), |a.expertIds| as real) == AllFlips(a, b, |a.expertIds|, layers) as real
  {
    hide RouterTrace.Valid, Flips;
    if layers == 0 {
      assert Times(0.0, |a.expertIds| as real) == 0.0;
    } else {
      LayerRatesSum(a, b, layers - 1);
      var x, y, d := LayerRate(a, b, layers - 1), Sum(LayerRates(a, b, layers - 1)), |a.expertIds| as real;
      assert LayerRates(a, b, layers)[1..] == LayerRates(a, b, layers - 1);
      assert Times(x, d) == Flips(a, b, |a.expertIds|, layers - 1) as real;
      hide LayerRates;
      Distributes(x, y, d);
    }
  }

  lemma Distributes(x: real, y: real, d: real)
    ensures Times(x + y, d) == Times(x, d) + Times(y, d)
  {
  }

  /** The router flip rate is the mean of the layer flip rates. */
  lemma {:induction false} FlipRateIsMean(a: RouterTrace, b: RouterTrace)
    requires SameShape(a, b) && a.expertIds != []
    ensures a.numLayers > 0
    ensures FlipRate(a, b) == Sum(LayerRates(a, b, a.numLayers)) / a.numLayers as real
  {
    hide RouterTrace.Valid, AllFlips, LayerRates;
    LayersExist(a);
    PositiveCount(|a.expertIds|, a.numLayers);
    LayerRatesSum(a, b, a.numLayers);
    MeanOfRates(Sum(LayerRates(a, b, a.numLayers)), AllFlips(a, b, |a.expertIds|, a.numLayers), |a.expertIds|,
                a.numLayers);
  }

  lemma MeanOfRates(total: real, count: nat, tokens: nat, layers: nat)
    requires tokens > 0 && layers > 0 && tokens * layers > 0 && Times(total, tokens as real) == count as real
    ensures Rate(count, tokens * layers) == total / layers as real
  {
  }

  lemma {:induction false} SingleExpertCounts(a: RouterTrace, b: RouterTrace, n: nat, l: nat)
    requires SameShape(a, b) && a.topK == 1 && n <= |a.expertIds| && l < a.numLayers
    ensures Flips(a, b, n, l) <= Disagreements(a, b, n)
  {
    if n == 0 {
    } else {
      SingleExpertCounts(a, b, n - 1, l);
      SingleExpert(a, b, n - 1, l);
    }
  }

  lemma SingleExpert(a: RouterTrace, b: RouterTrace, t: nat, l: nat)
    requires SameShape(a, b) && a.topK == 1 && t < |a.expertIds| && l < a.numLayers
    ensures TopFlips(a, b, t, l) <==> SetsDiffer(a, b, t, l)
  {
    var x, y := a.expertIds[t][l], b.expertIds[t][l];
    assert x == [x[0]] && y == [y[0]];
    assert x[0] in Experts(x) && y[0] in Experts(y);
  }

  lemma {:induction false} FlipsRow(a: RouterTrace, b: RouterTrace, n: nat, layers: nat)
    requires SameShape(a, b) && a.topK == 1 && 0 < n <= |a.expertIds| && layers <= a.numLayers
    ensures AllFlips(a, b, n, layers) >=
      AllFlips(a, b, n - 1, layers) + (if TokenDisagrees(a, b, n - 1, layers) then 1 else 0)
  {
    if layers == 0 {
    } else {
      FlipsRow(a, b, n, layers - 1);
      SingleExpert(a, b, n - 1, layers - 1);
      if TokenDisagrees(a, b, n - 1, layers) && !TokenDisagrees(a, b, n - 1, layers - 1) {
        assert SetsDiffer(a, b, n - 1, layers - 1);
      }
    }
  }

  lemma {:induction false} FlipsCountTokens(a: RouterTrace, b: RouterTrace, n: nat)
    requires SameShape(a, b) && a.topK == 1 && n <= |a.expertIds|
    ensures Disagreements(a, b, n) <= AllFlips(a, b, n, a.numLayers)
  {
    if n == 0 {
    } else {
      FlipsCountTokens(a, b, n - 1);
      FlipsRow(a, b, n, a.numLayers);
    }
  }

  /** With one expert per layer the token rate lies between the largest layer rate and the sum of the layer rates. */
  lemma {:induction false} TokenRateBetween(a: RouterTrace, b: RouterTrace)
    requires SameShape(a, b) && a.topK == 1 && a.expertIds != []
    ensures forall l: nat :: l < a.numLayers ==> LayerRate(a, b, l) <= TokenRate(a, b)
    ensures TokenRate(a, b) <= Sum(LayerRates(a, b, a.numLayers))
  {
    hide RouterTrace.Valid, Flips, Disagreements, AllFlips, LayerRates, Rate;
    var n := |a.expertIds|;
    LayersExist(a);
    forall l: nat | l < a.numLayers ensures LayerRate(a, b, l) <= TokenRate(a, b) {
      SingleExpertCounts(a, b, n, l);
      RateTriangle(Flips(a, b, n, l), Disagreements(a, b, n), 0, n);
      RateRange(0, n);
    }
    FlipsCountTokens(a, b, n);
    LayerRatesSum(a, b, a.numLayers);
    RateBelow(Disagreements(a, b, n), AllFlips(a, b, |a.expertIds|, a.numLayers), n,
              Sum(LayerRates(a, b, a.numLayers)));
  }

  lemma RateBelow(count: nat, bound: nat, tokens: nat, total: real)
    requires tokens > 0 && count <= bound && Times(total, tokens as real) == bound as real
    ensures Rate(count, tokens) <= total
  {
  }
}
