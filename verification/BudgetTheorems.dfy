/** What a budget report says about the tokens behind it, and what a decision says about its report. */
module BudgetTheorems {
  import opened Wrappers
  import opened Contracts
  import opened Weights
  import opened Opbc

  // ----- fractions and tokens

  lemma {:induction false} BeyondNone(ratios: seq<real>, bound: real)
    ensures Beyond(ratios, bound) <= |ratios|
    ensures Beyond(ratios, bound) == 0 <==> forall i :: 0 <= i < |ratios| ==> Abs(ratios[i]) <= bound
  {
    hide Abs;
    if ratios == [] {
    } else {
      BeyondNone(ratios[1..], bound);
      assert forall i :: 0 < i < |ratios| ==> ratios[i] == ratios[1..][i - 1];
      assert forall i :: 0 <= i < |ratios[1..]| ==> ratios[1..][i] == ratios[i + 1];
    }
  }

  lemma FractionSign(k: nat, n: nat)
    requires n > 0
    ensures Fraction(k, n) >= 0.0 && (Fraction(k, n) > 0.0 <==> k > 0)
    ensures k <= n ==> Fraction(k, n) <= 1.0
  {
  }

  /**
   One token beyond the veto threshold is enough for a veto; a clipped fraction of zero means no token
   was clipped.
   */
  lemma {:induction false} FractionsCountTokens(group: SampleGroup, train: seq<real>, policy: BudgetPolicy,
                                                flip: Option<real>, exp: real -> real)
    requires group.Valid() && IsExp(exp) && Report(group, train, policy, flip, exp).Ok?
    ensures var r := Report(group, train, policy, flip, exp).value;
      var ratios := LogRatios(Flatten(group.trajectories), train);
      && (Vetoed(r) <==> exists i :: 0 <= i < |ratios| && Abs(ratios[i]) > policy.vetoAbsLogRatio)
      && (r.clippedFraction == 0.0 <==> forall i :: 0 <= i < |ratios| ==> Abs(ratios[i]) <= policy.clamp)
      && 0.0 <= r.clippedFraction <= 1.0 && 0.0 <= r.vetoFraction <= 1.0
      && (policy.clamp <= policy.vetoAbsLogRatio && Vetoed(r) ==> r.clippedFraction > 0.0)
  {
    hide IsExp, Flatten, Sum, SumSq, EssOf, Notes, Abs, Beyond, Fraction;
    var ratios := LogRatios(Flatten(group.trajectories), train);
    BeyondNone(ratios, policy.vetoAbsLogRatio);
    BeyondNone(ratios, policy.clamp);
    FractionSign(Beyond(ratios, policy.vetoAbsLogRatio), |ratios|);
    FractionSign(Beyond(ratios, policy.clamp), |ratios|);
  }

  // ----- effective sample size

  ghost predicate ClippedAlike(ratios: seq<real>, clamp: real) {
    forall i, j :: 0 <= i < |ratios| && 0 <= j < |ratios| ==> Clip(ratios[i], clamp) == Clip(ratios[j], clamp)
  }

  lemma {:induction false} EqualWeights(ratios: seq<real>, clamp: real, exp: real -> real)
    requires IsExp(exp)
    ensures AllEqual(WeightsOf(ratios, clamp, exp)) <==> ClippedAlike(ratios, clamp)
  {
  }

  lemma {:induction false} MetricsEss(group: SampleGroup, ratios: seq<real>, policy: BudgetPolicy, flip: Option<real>,
                                      exp: real -> real)
    requires ratios != [] && IsExp(exp)
    ensures var r := Metrics(group, ratios, policy, flip, exp);
      && 1.0 / |ratios| as real <= r.effectiveSampleSize <= 1.0
      && (r.effectiveSampleSize == 1.0 <==> ClippedAlike(ratios, policy.clamp))
      && Times(r.effectiveSampleSize, r.secondMoment) == Square(r.meanWeight)
      && r.variance == r.secondMoment - Square(r.meanWeight)
      && r.maxAbsLogRatio == MaxAbs(ratios)
  {
    hide IsExp, Sum, SumSq, EssOf, Notes, Beyond, Deviations, Square, Times, Fraction, AllEqual, ClippedAlike,
      AllPositive;
    var w := WeightsOf(ratios, policy.clamp, exp);
    WeightsPositive(ratios, policy.clamp, exp);
    EssRange(w);
    EssTimesSecondMoment(w);
    VarianceIdentity(w);
    EqualWeights(ratios, policy.clamp, exp);
  }

  /**
   The effective sample size lies in [1/n, 1] and is 1 exactly when all clipped log-ratios agree;
   its product with the second moment is the squared mean weight.
   */
  lemma {:induction false} EffectiveSampleSize(group: SampleGroup, train: seq<real>, policy: BudgetPolicy,
                                               flip: Option<real>, exp: real -> real)
    requires group.Valid() && IsExp(exp) && Report(group, train, policy, flip, exp).Ok?
    ensures var r := Report(group, train, policy, flip, exp).value;
      var ratios := LogRatios(Flatten(group.trajectories), train);
      && ratios != [] && 1.0 / |ratios| as real <= r.effectiveSampleSize <= 1.0
      && (r.effectiveSampleSize == 1.0 <==> ClippedAlike(ratios, policy.clamp))
      && Times(r.effectiveSampleSize, r.secondMoment) == Square(r.meanWeight)
      && r.variance == r.secondMoment - Square(r.meanWeight)
  {
    hide IsExp, Flatten, Metrics, Square, Times, ClippedAlike, Report, LogRatios;
    ReportIsMetrics(group, train, policy, flip, exp);
    MetricsEss(group, LogRatios(Flatten(group.trajectories), train), policy, flip, exp);
  }

  lemma ReportIsMetrics(group: SampleGroup, train: seq<real>, policy: BudgetPolicy, flip: Option<real>,
                        exp: real -> real)
    requires group.Valid() && IsExp(exp) && Report(group, train, policy, flip, exp).Ok?
    ensures |Flatten(group.trajectories)| == |train| && LogRatios(Flatten(group.trajectories), train) != []
    ensures Report(group, train, policy, flip, exp)
      == Ok(Metrics(group, LogRatios(Flatten(group.trajectories), train), policy, flip, exp))
  {
  }

  /** A constant offset between trainer and rollout is invisible to the effective sample size, however large it is. */
  lemma {:induction false} ConstantOffsetIsInvisible(group: SampleGroup, train: seq<real>, policy: BudgetPolicy,
                                                     flip: Option<real>, exp: real -> real, offset: real)
    requires group.Valid() && IsExp(exp) && Report(group, train, policy, flip, exp).Ok?
    requires forall i :: 0 <= i < |train| ==> train[i] == Flatten(group.trajectories)[i] + offset
    ensures Report(group, train, policy, flip, exp).value.effectiveSampleSize == 1.0
    ensures !Uneven(Report(group, train, policy, flip, exp).value, policy) || policy.minEss > 1.0
  {
    hide IsExp, Flatten, Metrics;
    EffectiveSampleSize(group, train, policy, flip, exp);
    var ratios := LogRatios(Flatten(group.trajectories), train);
    assert forall i :: 0 <= i < |ratios| ==> ratios[i] == offset;
  }

  // ----- the Kantorovich bound

  predicate InBand(x: real, m: real) {
    -m <= x <= m || x == m
  }

  /** A clipped log-ratio between -m and m gives a weight between exp(-m) and exp(m). */
  lemma WeightInBand(exp: real -> real, x: real, m: real)
    requires IsExp(exp) && InBand(x, m)
    ensures (exp(x) - exp(-m)) * (exp(x) - exp(m)) <= 0.0
  {
    hide IsExp;
    ExpMonotone(exp, -m, x);
    ExpMonotone(exp, x, m);
    if x == m {
      ZeroProduct(exp(x) - exp(-m), exp(x) - exp(m));
    } else {
      OppositeSigns(exp(x) - exp(-m), exp(x) - exp(m));
    }
  }

  lemma OppositeSigns(x: real, y: real)
    requires x >= 0.0 && y <= 0.0
    ensures x * y <= 0.0
  {
  }

  lemma ZeroProduct(x: real, y: real)
    requires y == 0.0
    ensures x * y <= 0.0
  {
  }

  lemma BandPositive(m: real, exp: real -> real)
    requires IsExp(exp)
    ensures Square(exp(-m) + exp(m)) > 0.0
  {
  }

  /** 4 / (exp m + exp -m)^2 */
  function Bound(m: real, exp: real -> real): real
    requires IsExp(exp)
  {
    BandPositive(m, exp);
    4.0 / Square(exp(-m) + exp(m))
  }

  lemma {:induction false} WeightsKantorovich(ratios: seq<real>, clamp: real, exp: real -> real, m: real)
    requires ratios != [] && IsExp(exp)
    requires forall i :: 0 <= i < |ratios| ==> InBand(Clip(ratios[i], clamp), m)
    ensures SumSq(WeightsOf(ratios, clamp, exp)) > 0.0
    ensures Ess(WeightsOf(ratios, clamp, exp)) >= Bound(m, exp)
  {
    hide IsExp, EssOf, SumSq, Square, Clip, InBand, Ess;
    var w := WeightsOf(ratios, clamp, exp);
    WeightsPositive(ratios, clamp, exp);
    ExpPositive(exp, m);
    ExpPositive(exp, -m);
    Inverse(exp, m);
    forall i | 0 <= i < |w| ensures (w[i] - exp(-m)) * (w[i] - exp(m)) <= 0.0 {
      WeightInBand(exp, Clip(ratios[i], clamp), m);
    }
    Kantorovich(w, exp(-m), exp(m));
  }

  lemma Inverse(exp: real -> real, m: real)
    requires IsExp(exp)
    ensures exp(-m) * exp(m) == 1.0
  {
  }

  lemma {:induction false} MetricsKantorovich(group: SampleGroup, ratios: seq<real>, policy: BudgetPolicy,
                                              flip: Option<real>, exp: real -> real)
    requires ratios != [] && IsExp(exp)
    ensures var m := Min(policy.clamp, MaxAbs(ratios));
      Metrics(group, ratios, policy, flip, exp).effectiveSampleSize >= Bound(m, exp)
  {
    hide IsExp, EssOf, SumSq, Sum, Square, Notes, Beyond, Deviations, Fraction, Bound, InBand, Clip;
    var m := Min(policy.clamp, MaxAbs(ratios));
    forall i | 0 <= i < |ratios| ensures InBand(Clip(ratios[i], policy.clamp), m) {
      ClippedInBand(ratios[i], policy.clamp, MaxAbs(ratios));
    }
    WeightsKantorovich(ratios, policy.clamp, exp, m);
  }

  lemma ClippedInBand(x: real, clamp: real, largest: real)
    requires Abs(x) <= largest
    ensures InBand(Clip(x, clamp), Min(clamp, largest))
  {
  }

  /**
   However the log-ratios are spread, clipping at `clamp` bounds the loss of effective sample size:
   with m the smaller of `clamp` and the largest magnitude it is at least 4 / (exp m + exp -m)^2.
   */
  lemma {:induction false} ClampBoundsEss(group: SampleGroup, train: seq<real>, policy: BudgetPolicy,
                                          flip: Option<real>, exp: real -> real)
    requires group.Valid() && IsExp(exp) && Report(group, train, policy, flip, exp).Ok?
    ensures var r := Report(group, train, policy, flip, exp).value;
      var m := Min(policy.clamp, r.maxAbsLogRatio);
      r.effectiveSampleSize >= Bound(m, exp)
  {
    hide IsExp, Flatten, Bound, Square;
    MetricsKantorovich(group, LogRatios(Flatten(group.trajectories), train), policy, flip, exp);
  }

  /**
   When that bound meets both thresholds, no token is beyond the clamp and lag and routing are within
   limits: train.
   */
  lemma {:induction false} SmallRatiosTrain(group: SampleGroup, train: seq<real>, policy: BudgetPolicy,
                                            flip: Option<real>, exp: real -> real)
    requires group.Valid() && IsExp(exp) && Report(group, train, policy, flip, exp).Ok?
    requires var r := Report(group, train, policy, flip, exp).value;
      && r.maxAbsLogRatio <= policy.clamp <= policy.vetoAbsLogRatio
      && Bound(r.maxAbsLogRatio, exp) >= policy.minEss && Bound(r.maxAbsLogRatio, exp) >= policy.replayEssThreshold
    requires policy.maxClippedFraction >= 0.0
    requires group.policyLagSteps <= policy.maxPolicyLagSteps && group.policyLagSteps <= policy.replayLagThreshold
    requires flip.Some? ==> flip.value <= policy.maxRouterFlipRate
    ensures Decision(Report(group, train, policy, flip, exp).value, policy)
      == Verdict(Report(group, train, policy, flip, exp).value, Accepted, [WithinBudget], Train)
  {
    ReportEchoes(group, train, policy, flip, exp);
    FractionsCountTokens(group, train, policy, flip, exp);
    ClampBoundsEss(group, train, policy, flip, exp);
    hide IsExp, Flatten, Bound, Square, Report, Verdict, LogRatios;
  }

  /** What a report copies from its inputs; its largest magnitude bounds every token. */
  lemma {:induction false} ReportEchoes(group: SampleGroup, train: seq<real>, policy: BudgetPolicy,
                                        flip: Option<real>, exp: real -> real)
    requires group.Valid() && IsExp(exp) && Report(group, train, policy, flip, exp).Ok?
    ensures var r := Report(group, train, policy, flip, exp).value;
      var ratios := LogRatios(Flatten(group.trajectories), train);
      && r.groupId == group.groupId && r.policyLagSteps == group.policyLagSteps && r.routerFlipRate == flip
      && (forall i :: 0 <= i < |ratios| ==> Abs(ratios[i]) <= r.maxAbsLogRatio)
      && r.notes == Notes(r.effectiveSampleSize, r.clippedFraction, r.policyLagSteps, r.routerFlipRate, policy)
  {
  }

  // ----- decisions

  predicate Hard(r: BudgetReport, p: BudgetPolicy) {
    Stale(r, p) || Uneven(r, p) || Rerouted(r, p)
  }

  /**
   Which reports get which action and status, in the figures of the report and the limits of the
   policy alone; a budget decision never rejects.
   */
  lemma DecisionTable(r: BudgetReport, p: BudgetPolicy)
    ensures var d := Decision(r, p);
      var veto := r.vetoFraction > 0.0;
      var hard := (r.policyLagSteps > p.maxPolicyLagSteps || r.effectiveSampleSize < p.minEss
                   || (r.routerFlipRate.Some? && r.routerFlipRate.value > p.maxRouterFlipRate));
      var clipped := r.clippedFraction > p.maxClippedFraction;
      var soft := r.policyLagSteps > p.replayLagThreshold || r.effectiveSampleSize < p.replayEssThreshold;
      && d.Valid() && d.groupId == r.groupId && d.budgetReport == Some(r) && d.rejectionReason == None
      && (d.recommendedAction == Quarantine <==> veto || hard)
      && (d.recommendedAction == TrainWithCorrection <==> !veto && !hard && clipped)
      && (d.recommendedAction == Replay <==> !veto && !hard && !clipped && soft)
      && (d.recommendedAction == Train <==> !veto && !hard && !clipped && !soft)
      && (d.status == Quarantined <==> veto || hard)
      && (d.status == Correctable <==> !veto && !hard && clipped)
      && (d.status == Accepted <==> !veto && !hard && !clipped)
  {
  }

  /** Each reason is attached exactly when its own limit is broken and no graver branch decided. */
  lemma ReasonTable(r: BudgetReport, p: BudgetPolicy)
    ensures var reasons := Decision(r, p).decisionReasons;
      var veto := r.vetoFraction > 0.0;
      var stale, uneven := r.policyLagSteps > p.maxPolicyLagSteps, r.effectiveSampleSize < p.minEss;
      var rerouted := r.routerFlipRate.Some? && r.routerFlipRate.value > p.maxRouterFlipRate;
      var spared := !veto && !stale && !uneven && !rerouted;
      var clipped := r.clippedFraction > p.maxClippedFraction;
      && (VetoThresholdExceeded in reasons <==> veto)
      && (StalePolicyLag in reasons <==> !veto && stale)
      && (LowEss in reasons <==> !veto && uneven)
      && (HighRouterFlipRate in reasons <==> !veto && rerouted)
      && (HighClippedFraction in reasons <==> spared && clipped)
      && (ReplayTierLag in reasons <==> spared && !clipped && r.policyLagSteps > p.replayLagThreshold)
      && (ReplayTierEss in reasons <==> spared && !clipped && r.effectiveSampleSize < p.replayEssThreshold)
      && (WithinBudget in reasons <==> Decision(r, p).recommendedAction == Train)
  {
  }

  /** Reasons of one branch stand in the order of their tests, none of them twice. */
  lemma ReasonOrder(r: BudgetReport, p: BudgetPolicy)
    ensures var reasons := Decision(r, p).decisionReasons;
      forall i, j :: 0 <= i < j < |reasons| ==>
        (reasons[i], reasons[j]) in {(StalePolicyLag, LowEss), (StalePolicyLag, HighRouterFlipRate),
                                     (LowEss, HighRouterFlipRate), (ReplayTierLag, ReplayTierEss)}
  {
  }

  function Severity(a: Action): nat {
    match a
    case Train => 0
    case Replay => 1
    case TrainWithCorrection => 2
    case Quarantine => 3
    case Reject => 4
  }

  predicate NoBetter(s: BudgetReport, r: BudgetReport) {
    && s.vetoFraction >= r.vetoFraction && s.clippedFraction >= r.clippedFraction
    && s.effectiveSampleSize <= r.effectiveSampleSize && s.policyLagSteps >= r.policyLagSteps
    && (r.routerFlipRate.Some? ==> s.routerFlipRate.Some? && s.routerFlipRate.value >= r.routerFlipRate.value)
  }

  predicate NoLaxer(q: BudgetPolicy, p: BudgetPolicy) {
    && q.minEss >= p.minEss && q.replayEssThreshold >= p.replayEssThreshold
    && q.maxClippedFraction <= p.maxClippedFraction && q.maxRouterFlipRate <= p.maxRouterFlipRate
    && q.maxPolicyLagSteps <= p.maxPolicyLagSteps && q.replayLagThreshold <= p.replayLagThreshold
  }

  /** A report that is no better on any metric, judged by a policy that is no laxer, never gets a milder action. */
  lemma SeverityIsMonotone(r: BudgetReport, p: BudgetPolicy, s: BudgetReport, q: BudgetPolicy)
    requires NoBetter(s, r) && NoLaxer(q, p)
    ensures Severity(Decision(r, p).recommendedAction) <= Severity(Decision(s, q).recommendedAction)
  {
  }

  /**
   A report written under the deciding policy carries no note exactly when nothing but a veto can keep
   it from use.
   */
  lemma {:induction false} NotesForetell(group: SampleGroup, train: seq<real>, policy: BudgetPolicy,
                                         flip: Option<real>, exp: real -> real)
    requires group.Valid() && IsExp(exp) && Report(group, train, policy, flip, exp).Ok?
    ensures var r := Report(group, train, policy, flip, exp).value;
      r.notes == [] && !Vetoed(r) <==> Decision(r, policy).status.Accepted?
  {
    var r := Report(group, train, policy, flip, exp).value;
    ReportEchoes(group, train, policy, flip, exp);
    hide IsExp, Flatten, Metrics, Report, Decision;
    DecisionTable(r, policy);
    if Hard(r, policy) || Overclipped(r, policy) {
      assert |r.notes| > 0;
    }
  }
}
