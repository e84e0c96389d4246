/**
 The two metric implementations compared: the budget report masks each trajectory and is given the
 trainer's selected tokens; the mismatch summary gets whole concatenated streams and one mask.
 */
module MetricsAgreement {
  import opened Wrappers
  import opened Contracts
  import opened Weights
  import opened Opbc
  import opened BudgetTheorems
  import opened MismatchMetrics

  // ----- the same tokens as streams

  function PolicyMask(t: Trajectory): (mask: seq<int>)
    requires t.Valid()
    ensures |mask| == |t.rolloutLogprobs|
  {
    seq(|t.rolloutLogprobs|, i requires 0 <= i < |t.rolloutLogprobs| =>
      if t.actionMask[i] != 0 && t.toolOutputMask[i] == 0 then 1 else 0)
  }

  ghost predicate AllValid(ts: seq<Trajectory>) {
    forall i :: 0 <= i < |ts| ==> ts[i].Valid()
  }

  /** One trainer log-probability for every response token, trajectory by trajectory. */
  ghost predicate FullLength(ts: seq<Trajectory>, trainers: seq<seq<real>>) {
    |trainers| == |ts| && forall i :: 0 <= i < |ts| ==> |trainers[i]| == |ts[i].rolloutLogprobs|
  }

  function RolloutStream(ts: seq<Trajectory>): seq<real> {
    if ts == [] then [] else RolloutStream(ts[..|ts| - 1]) + ts[|ts| - 1].rolloutLogprobs
  }

  function MaskStream(ts: seq<Trajectory>): (mask: seq<int>)
    requires AllValid(ts)
    ensures |mask| == |RolloutStream(ts)|
  {
    if ts == [] then [] else MaskStream(ts[..|ts| - 1]) + PolicyMask(ts[|ts| - 1])
  }

  function TrainerStream(ts: seq<Trajectory>, trainers: seq<seq<real>>): (s: seq<real>)
    requires FullLength(ts, trainers)
    ensures |s| == |RolloutStream(ts)|
  {
    if ts == [] then [] else TrainerStream(ts[..|ts| - 1], trainers[..|ts| - 1]) + trainers[|ts| - 1]
  }

  function TrainerSelected(ts: seq<Trajectory>, trainers: seq<seq<real>>): seq<real>
    requires AllValid(ts) && FullLength(ts, trainers)
  {
    if ts == [] then []
    else
      var n := |ts| - 1;
      assert ts[n].Valid();
      TrainerSelected(ts[..n], trainers[..n]) + Selected(trainers[n], ts[n].actionMask, ts[n].toolOutputMask)
  }

  // ----- masking first and subtracting first come to the same

  lemma {:induction false} DeltasConcat(a: seq<real>, b: seq<real>, c: seq<real>, d: seq<real>, m: seq<int>,
                                        k: seq<int>)
    requires |a| == |c| == |m| && |b| == |d| == |k|
    ensures Deltas(a + b, c + d, m + k) == Deltas(a, c, m) + Deltas(b, d, k)
  {
    if b == [] {
      assert a + b == a && c + d == c && m + k == m;
    } else {
      var n := |b| - 1;
      DeltasConcat(a, b[..n], c, d[..n], m, k[..n]);
      assert (a + b)[..|a + b| - 1] == a + b[..n];
      assert (c + d)[..|a + b| - 1] == c + d[..n];
      assert (m + k)[..|a + b| - 1] == m + k[..n];
    }
  }

  lemma {:induction false} SelectedDeltas(rollout: seq<real>, trainer: seq<real>, action: seq<int>, tool: seq<int>,
                                          mask: seq<int>)
    requires |rollout| == |trainer| == |action| == |tool| == |mask|
    requires forall i :: 0 <= i < |mask| ==> (mask[i] != 0 <==> action[i] != 0 && tool[i] == 0)
    ensures |Selected(rollout, action, tool)| == |Selected(trainer, action, tool)|
    ensures Deltas(rollout, trainer, mask)
      == LogRatios(Selected(rollout, action, tool), Selected(trainer, action, tool))
  {
    if rollout == [] {
    } else {
      var n := |rollout| - 1;
      SelectedDeltas(rollout[..n], trainer[..n], action[..n], tool[..n], mask[..n]);
    }
  }

  lemma {:induction false} StreamDeltas(ts: seq<Trajectory>, trainers: seq<seq<real>>)
    requires AllValid(ts) && FullLength(ts, trainers)
    ensures |Flatten(ts)| == |TrainerSelected(ts, trainers)|
    ensures Deltas(RolloutStream(ts), TrainerStream(ts, trainers), MaskStream(ts))
      == LogRatios(Flatten(ts), TrainerSelected(ts, trainers))
  {
    hide Selected, PolicyMask;
    if ts == [] {
    } else {
      var n := |ts| - 1;
      var t := ts[n];
      assert t.Valid();
      StreamDeltas(ts[..n], trainers[..n]);
      StreamStep(RolloutStream(ts[..n]), TrainerStream(ts[..n], trainers[..n]), MaskStream(ts[..n]),
                 Flatten(ts[..n]), TrainerSelected(ts[..n], trainers[..n]), t, trainers[n]);
    }
  }

  lemma TrajectoryDeltas(t: Trajectory, trainer: seq<real>)
    requires t.Valid() && |trainer| == |t.rolloutLogprobs|
    ensures |Selected(t.rolloutLogprobs, t.actionMask, t.toolOutputMask)| ==
      |Selected(trainer, t.actionMask, t.toolOutputMask)|
    ensures Deltas(t.rolloutLogprobs, trainer, PolicyMask(t))
      == LogRatios(Selected(t.rolloutLogprobs, t.actionMask, t.toolOutputMask),
                   Selected(trainer, t.actionMask, t.toolOutputMask))
  {
    hide Deltas, Selected, LogRatios;
    SelectedDeltas(t.rolloutLogprobs, trainer, t.actionMask, t.toolOutputMask, PolicyMask(t));
  }

  lemma StreamStep(rollouts: seq<real>, trainers: seq<real>, masks: seq<int>, flat: seq<real>, selected: seq<real>,
                   t: Trajectory, trainer: seq<real>)
    requires |rollouts| == |trainers| == |masks| && |flat| == |selected|
    requires Deltas(rollouts, trainers, masks) == LogRatios(flat, selected)
    requires t.Valid() && |trainer| == |t.rolloutLogprobs|
    ensures var f, g := flat + Selected(t.rolloutLogprobs, t.actionMask, t.toolOutputMask),
                        selected + Selected(trainer, t.actionMask, t.toolOutputMask);
      && |f| == |g|
      && Deltas(rollouts + t.rolloutLogprobs, trainers + trainer, masks + PolicyMask(t)) == LogRatios(f, g)
  {
    hide Deltas, Selected, LogRatios, PolicyMask;
    TrajectoryDeltas(t, trainer);
    DeltasConcat(rollouts, t.rolloutLogprobs, trainers, trainer, masks, PolicyMask(t));
    RatiosConcat(flat, Selected(t.rolloutLogprobs, t.actionMask, t.toolOutputMask),
                 selected, Selected(trainer, t.actionMask, t.toolOutputMask));
  }

  lemma RatiosConcat(a: seq<real>, b: seq<real>, c: seq<real>, d: seq<real>)
    requires |a| == |c| && |b| == |d|
    ensures LogRatios(a + b, c + d) == LogRatios(a, c) + LogRatios(b, d)
  {
  }

  // ----- clipping

  lemma ClipsAgree(x: real, clamp: real)
    ensures clamp >= 0.0 ==> Clip(x, clamp) == PyClip(x, clamp)
    ensures clamp < 0.0 ==> Clip(x, clamp) == clamp && PyClip(x, clamp) == -clamp
  {
  }

  lemma {:induction false} BeyondCounts(ratios: seq<real>, bound: real)
    ensures Beyond(ratios, bound) == Count(Flags(ratios, bound))
  {
    if ratios == [] {
    } else {
      BeyondCounts(ratios[1..], bound);
      assert Flags(ratios, bound)[1..] == Flags(ratios[1..], bound);
    }
  }

  lemma {:induction false} ConstantSquares(w: seq<real>, v: real)
    requires forall i :: 0 <= i < |w| ==> w[i] == v
    ensures SumSq(w) == Times(|w| as real, Square(v))
  {
    hide Square;
    if w == [] {
      assert Times(0.0, Square(v)) == 0.0;
    } else {
      ConstantSquares(w[1..], v);
      OneMore(|w[1..]| as real, Square(v));
      assert |w| as real == |w[1..]| as real + 1.0;
      hide Times;
    }
  }

  /** Both clips send every ratio to one value when the clamp is negative, but not to the same value. */
  lemma {:induction false} NegativeClamp(ratios: seq<real>, clamp: real, exp: real -> real)
    requires ratios != [] && IsExp(exp) && clamp < 0.0
    ensures var v, w := WeightsOf(ratios, clamp, exp), PyWeights(ratios, clamp, exp);
      && SumSq(v) > 0.0 && SumSq(w) > 0.0 && Ess(v) == 1.0 == Ess(w) && SumSq(v) != SumSq(w)
  {
    hide IsExp, EssOf, SumSq, Sum, Square, Times, Clip, PyClip;
    var v, w := WeightsOf(ratios, clamp, exp), PyWeights(ratios, clamp, exp);
    forall i | 0 <= i < |ratios| ensures v[i] == exp(clamp) && w[i] == exp(-clamp) {
      ClipsAgree(ratios[i], clamp);
    }
    WeightsPositive(ratios, clamp, exp);
    PyWeightsPositive(ratios, clamp, exp);
    EssRange(v);
    EssRange(w);
    ConstantSquares(v, exp(clamp));
    ConstantSquares(w, exp(-clamp));
    ExpMonotone(exp, -clamp, clamp);
    ExpPositive(exp, clamp);
    LargerSquares(|v| as real, exp(clamp), exp(-clamp));
  }

  lemma LargerSquares(n: real, x: real, y: real)
    requires n > 0.0 && 0.0 < x < y
    ensures Times(n, Square(x)) < Times(n, Square(y))
  {
    PositiveProduct(y - x, y + x);
    assert (y - x) * (y + x) == Square(y) - Square(x);
    PositiveProduct(n, Square(y) - Square(x));
    assert n * (Square(y) - Square(x)) == n * Square(y) - n * Square(x);
  }

  lemma {:induction false} SameWeights(ratios: seq<real>, clamp: real, exp: real -> real)
    requires clamp >= 0.0
    ensures WeightsOf(ratios, clamp, exp) == PyWeights(ratios, clamp, exp)
  {
  }

  // ----- agreement

  ghost predicate Agree(r: BudgetReport, m: MismatchSummary) {
    && r.effectiveSampleSize == m.ess
    && r.clippedFraction == m.clippedFraction
    && r.vetoFraction == m.vetoFraction
    && r.maxAbsLogRatio == m.maxAbsLogRatio
  }

  lemma {:induction false} MetricsAgree(group: SampleGroup, ratios: seq<real>, policy: BudgetPolicy, flip: Option<real>,
                                        exp: real -> real)
    requires ratios != [] && IsExp(exp)
    ensures var r := Metrics(group, ratios, policy, flip, exp);
      var m := Summary(ratios, policy.clamp, policy.vetoAbsLogRatio, exp);
      && Agree(r, m) && (r.secondMoment == m.secondMoment <==> policy.clamp >= 0.0)
  {
    hide IsExp, EssOf, SumSq, Sum, Square, Notes, Beyond, Flags, Deviations, TopMass, Magnitudes;
    BeyondCounts(ratios, policy.clamp);
    BeyondCounts(ratios, policy.vetoAbsLogRatio);
    WeightsPositive(ratios, policy.clamp, exp);
    PyWeightsPositive(ratios, policy.clamp, exp);
    var v, w := WeightsOf(ratios, policy.clamp, exp), PyWeights(ratios, policy.clamp, exp);
    PositiveSums(v);
    PositiveSums(w);
    if policy.clamp >= 0.0 {
      SameWeights(ratios, policy.clamp, exp);
    } else {
      NegativeClamp(ratios, policy.clamp, exp);
      DifferentQuotients(SumSq(v), SumSq(w), |ratios| as real);
    }
  }

  lemma DifferentQuotients(x: real, y: real, d: real)
    requires d > 0.0 && x != y
    ensures x / d != y / d
  {
  }

  /**
   For every group and every full-length trainer stream the two implementations accept the same
   inputs and report the same effective sample size, clipped fraction, veto fraction and largest
   magnitude. The second moments agree exactly when the clamp is not negative.
   */
  lemma {:induction false} ImplementationsAgree(group: SampleGroup, trainers: seq<seq<real>>, policy: BudgetPolicy,
                                                flip: Option<real>, exp: real -> real)
    requires group.Valid() && IsExp(exp) && AllValid(group.trajectories) && FullLength(group.trajectories, trainers)
    ensures var ts := group.trajectories;
      var report := Report(group, TrainerSelected(ts, trainers), policy, flip, exp);
      var summary := Summarize(RolloutStream(ts), TrainerStream(ts, trainers), Some(MaskStream(ts)), policy.clamp,
                               policy.vetoAbsLogRatio, exp);
      && (report.Ok? <==> summary.Ok?)
      && (report.Ok? ==>
            && Agree(report.value, summary.value)
            && (report.value.secondMoment == summary.value.secondMoment <==> policy.clamp >= 0.0)
            && summary.value.numTokens == |Flatten(ts)|)
  {
    hide IsExp, Deltas, Flatten, Metrics, Agree, RolloutStream, MaskStream, TrainerStream, TrainerSelected;
    StreamDeltas(group.trajectories, trainers);
    var ratios := LogRatios(Flatten(group.trajectories), TrainerSelected(group.trajectories, trainers));
    if ratios != [] {
      MetricsAgree(group, ratios, policy, flip, exp);
    }
  }
}
