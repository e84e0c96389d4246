/**
 The off-policy budget of one sample group: importance weights, the report over them and the
 decision drawn from it. Floats are real numbers; `exp` is a parameter with the properties in `IsExp`.
 */
module Opbc {
  import opened Wrappers
  import opened Contracts
  import opened Weights

  // ----- the exponential function

  ghost predicate IsExp(exp: real -> real) {
    && (forall x :: exp(x) > 0.0)
    && (forall x, y :: x < y ==> exp(x) < exp(y))
    && (forall x, y :: y == -x ==> exp(x) * exp(y) == 1.0)
  }

  lemma ExpPositive(exp: real -> real, x: real)
    requires IsExp(exp)
    ensures exp(x) > 0.0
  {
  }

  lemma ExpMonotone(exp: real -> real, x: real, y: real)
    requires IsExp(exp)
    ensures x <= y <==> exp(x) <= exp(y)
    ensures x == y <==> exp(x) == exp(y)
  {
  }

  lemma ExpInverse(exp: real -> real, x: real)
    requires IsExp(exp)
    ensures exp(x) * exp(-x) == 1.0
  {
  }

  /** The exponential lies above its tangent at zero. */
  ghost predicate AboveTangent(exp: real -> real) {
    forall x :: exp(x) >= 1.0 + x
  }

  function Rational(x: real): real {
    if x >= 0.0 then 1.0 + x else 1.0 / (1.0 - x)
  }

  /** Some function has all the properties asked of `exp`, so no theorem about every such function is empty. */
  lemma ExpPropertiesAreConsistent()
    ensures IsExp(Rational) && AboveTangent(Rational)
  {
    hide Rational;
    forall x ensures Rational(x) > 0.0 && Rational(x) >= 1.0 + x {
      RationalBound(x);
    }
    forall x, y | x < y ensures Rational(x) < Rational(y) {
      RationalIncreases(x, y);
    }
    forall x, y | y == -x ensures Rational(x) * Rational(y) == 1.0 {
      RationalInverse(x, y);
    }
  }

  lemma RationalInverse(x: real, y: real)
    requires y == -x
    ensures Rational(x) * Rational(y) == 1.0
  {
  }

  lemma RationalBound(x: real)
    ensures Rational(x) > 0.0 && Rational(x) >= 1.0 + x
    ensures x < 0.0 ==> Rational(x) < 1.0
  {
    if x < 0.0 {
      var d := 1.0 - x;
      QuotientBounds(1.0, d, 1.0 + x);
      QuotientBounds(1.0, d, 0.0);
      QuotientBounds(1.0, d, 1.0);
      SquareSign(x);
      assert (1.0 + x) * d == 1.0 - Square(x);
    }
  }

  lemma RationalIncreases(x: real, y: real)
    requires x < y
    ensures Rational(x) < Rational(y)
  {
    RationalBound(x);
    if y < 0.0 {
      QuotientBounds(1.0, 1.0 - x, Rational(y));
      var r, d, e := Rational(y), 1.0 - x, 1.0 - y;
      assert r * e == 1.0;
      RationalBound(y);
      Scaled(d, e, r);
      assert r * d == d * r && r * e == e * r;
    }
  }

  // ----- policy and tokens

  datatype BudgetPolicy = BudgetPolicy(
    clamp: real,
    minEss: real,
    replayEssThreshold: real,
    maxClippedFraction: real,
    maxPolicyLagSteps: int,
    replayLagThreshold: int,
    vetoAbsLogRatio: real,
    maxRouterFlipRate: real)

  const DEFAULT_POLICY := BudgetPolicy(20.0, 0.30, 0.60, 0.10, 8, 4, 30.0, 0.15)

  /** The log-probabilities of the policy's own tokens: action mask set, tool mask clear. */
  function Selected(logprobs: seq<real>, action: seq<int>, tool: seq<int>): seq<real>
    requires |logprobs| == |action| == |tool|
  {
    if logprobs == [] then []
    else
      var n := |logprobs| - 1;
      Selected(logprobs[..n], action[..n], tool[..n]) + if action[n] != 0 && tool[n] == 0 then [logprobs[n]] else []
  }

  function Flatten(ts: seq<Trajectory>): seq<real>
    requires forall i :: 0 <= i < |ts| ==> ts[i].Valid()
  {
    if ts == [] then []
    else
      var t := ts[|ts| - 1];
      assert t.Valid();
      Flatten(ts[..|ts| - 1]) + Selected(t.rolloutLogprobs, t.actionMask, t.toolOutputMask)
  }

  method FlattenRolloutLogprobs(group: SampleGroup) returns (values: seq<real>)
    requires group.Valid()
    ensures values == Flatten(group.trajectories)
  {
    values := [];
    for i := 0 to |group.trajectories|
      invariant values == Flatten(group.trajectories[..i])
    {
      var t := group.trajectories[i];
      ghost var before := values;
      for k := 0 to |t.rolloutLogprobs|
        invariant values == before + Selected(t.rolloutLogprobs[..k], t.actionMask[..k], t.toolOutputMask[..k])
      {
        assert t.rolloutLogprobs[..k + 1][..k] == t.rolloutLogprobs[..k];
        assert t.actionMask[..k + 1][..k] == t.actionMask[..k];
        assert t.toolOutputMask[..k + 1][..k] == t.toolOutputMask[..k];
        if t.actionMask[k] != 0 && t.toolOutputMask[k] == 0 {
          values := values + [t.rolloutLogprobs[k]];
        }
      }
      assert t.rolloutLogprobs[..|t.rolloutLogprobs|] == t.rolloutLogprobs;
      assert t.actionMask[..|t.rolloutLogprobs|] == t.actionMask;
      assert t.toolOutputMask[..|t.rolloutLogprobs|] == t.toolOutputMask;
      assert group.trajectories[..i + 1][..i] == group.trajectories[..i];
    }
    assert group.trajectories[..|group.trajectories|] == group.trajectories;
  }

  // ----- metrics

  function LogRatios(rollout: seq<real>, train: seq<real>): (r: seq<real>)
    requires |rollout| == |train|
    ensures |r| == |rollout|
  {
    seq(|rollout|, i requires 0 <= i < |rollout| => train[i] - rollout[i])
  }

  /** numpy's clip: the lower bound first, so the upper bound wins when the two cross. */
  function Clip(x: real, clamp: real): real {
    Min(Max(x, -clamp), clamp)
  }

  function WeightsOf(ratios: seq<real>, clamp: real, exp: real -> real): (w: seq<real>)
    ensures |w| == |ratios|
    ensures forall i :: 0 <= i < |w| ==> w[i] == exp(Clip(ratios[i], clamp))
  {
    seq(|ratios|, i requires 0 <= i < |ratios| => exp(Clip(ratios[i], clamp)))
  }

  /** How many log-ratios are larger than `bound` in magnitude. */
  function Beyond(ratios: seq<real>, bound: real): nat {
    if ratios == [] then 0 else (if Abs(ratios[0]) > bound then 1 else 0) + Beyond(ratios[1..], bound)
  }

  function Fraction(k: nat, n: nat): real
    requires n > 0
  {
    k as real / n as real
  }

  function Notes(ess: real, clippedFraction: real, lag: int, flip: Option<real>, policy: BudgetPolicy): seq<string> {
    (if ess < policy.minEss then ["low effective sample size"] else [])
    + (if clippedFraction > policy.maxClippedFraction then ["high clipped fraction"] else [])
    + (if lag > policy.maxPolicyLagSteps then ["policy lag exceeds limit"] else [])
    + (if flip.Some? && flip.value > policy.maxRouterFlipRate then ["router_flip_rate exceeds limit"] else [])
  }

  function Metrics(group: SampleGroup, ratios: seq<real>, policy: BudgetPolicy, flip: Option<real>, exp: real -> real)
    : BudgetReport
    requires ratios != [] && IsExp(exp)
  {
    var w := WeightsOf(ratios, policy.clamp, exp);
    WeightsPositive(ratios, policy.clamp, exp);
    PositiveSums(w);
    var n := |w| as real;
    var mean := Sum(w) / n;
    var ess := Ess(w);
    var clipped := Fraction(Beyond(ratios, policy.clamp), |ratios|);
    BudgetReport(group.groupId, mean, SumSq(Deviations(w, mean)) / n, SumSq(w) / n, ess, clipped,
                 Fraction(Beyond(ratios, policy.vetoAbsLogRatio), |ratios|), MaxAbs(ratios), group.policyLagSteps, flip,
                 Notes(ess, clipped, group.policyLagSteps, flip, policy))
  }

  lemma WeightsPositive(ratios: seq<real>, clamp: real, exp: real -> real)
    requires IsExp(exp)
    ensures AllPositive(WeightsOf(ratios, clamp, exp))
  {
    forall i | 0 <= i < |ratios| ensures WeightsOf(ratios, clamp, exp)[i] > 0.0 {
      ExpPositive(exp, Clip(ratios[i], clamp));
    }
  }

  function Report(group: SampleGroup, train: seq<real>, policy: BudgetPolicy, flip: Option<real>, exp: real -> real)
    : Result<BudgetReport>
    requires group.Valid() && IsExp(exp)
  {
    var rollout := Flatten(group.trajectories);
    if |rollout| != |train| then Raised(InvalidValue)
    else if rollout == [] then Raised(InvalidValue)
    else Ok(Metrics(group, LogRatios(rollout, train), policy, flip, exp))
  }

  method ComputeBudgetReport(group: SampleGroup, train: seq<real>, policy: BudgetPolicy, flip: Option<real>,
                             exp: real -> real) returns (r: Result<BudgetReport>)
    requires group.Valid() && IsExp(exp)
    ensures r == Report(group, train, policy, flip, exp)
  {
    hide IsExp, Flatten, Sum, SumSq, EssOf, Beyond;
    var rollout := FlattenRolloutLogprobs(group);
    if |rollout| != |train| {
      return Raised(InvalidValue);
    }
    if |rollout| == 0 {
      return Raised(InvalidValue);
    }
    var ratios := LogRatios(rollout, train);
    var w := WeightsOf(ratios, policy.clamp, exp);
    WeightsPositive(ratios, policy.clamp, exp);
    PositiveSums(w);
    var ess := Ess(w);
    var clipped := Fraction(Beyond(ratios, policy.clamp), |ratios|);
    var veto := Fraction(Beyond(ratios, policy.vetoAbsLogRatio), |ratios|);
    var notes: seq<string> := [];
    if ess < policy.minEss {
      notes := notes + ["low effective sample size"];
    }
    if clipped > policy.maxClippedFraction {
      notes := notes + ["high clipped fraction"];
    }
    if group.policyLagSteps > policy.maxPolicyLagSteps {
      notes := notes + ["policy lag exceeds limit"];
    }
    if flip.Some? && flip.value > policy.maxRouterFlipRate {
      notes := notes + ["router_flip_rate exceeds limit"];
    }
    assert notes == Notes(ess, clipped, group.policyLagSteps, flip, policy);
    var mean := Sum(w) / |w| as real;
    r := Ok(BudgetReport(group.groupId, mean, SumSq(Deviations(w, mean)) / |w| as real, SumSq(w) / |w| as real, ess,
                         clipped, veto, MaxAbs(ratios), group.policyLagSteps, flip, notes));
  }

  // ----- the decision

  predicate Vetoed(r: BudgetReport) {
    r.vetoFraction > 0.0
  }

  predicate Stale(r: BudgetReport, p: BudgetPolicy) {
    r.policyLagSteps > p.maxPolicyLagSteps
  }

  predicate Uneven(r: BudgetReport, p: BudgetPolicy) {
    r.effectiveSampleSize < p.minEss
  }

  predicate Rerouted(r: BudgetReport, p: BudgetPolicy) {
    r.routerFlipRate.Some? && r.routerFlipRate.value > p.maxRouterFlipRate
  }

  predicate Overclipped(r: BudgetReport, p: BudgetPolicy) {
    r.clippedFraction > p.maxClippedFraction
  }

  predicate Lagging(r: BudgetReport, p: BudgetPolicy) {
    r.policyLagSteps > p.replayLagThreshold
  }

  predicate SomewhatUneven(r: BudgetReport, p: BudgetPolicy) {
    r.effectiveSampleSize < p.replayEssThreshold
  }

  function Reason(on: bool, reason: DecisionReason): seq<DecisionReason> {
    if on then [reason] else []
  }

  function HardReasons(r: BudgetReport, p: BudgetPolicy): seq<DecisionReason> {
    Reason(Stale(r, p), StalePolicyLag) + Reason(Uneven(r, p), LowEss) + Reason(Rerouted(r, p), HighRouterFlipRate)
  }

  function ReplayReasons(r: BudgetReport, p: BudgetPolicy): seq<DecisionReason> {
    Reason(Lagging(r, p), ReplayTierLag) + Reason(SomewhatUneven(r, p), ReplayTierEss)
  }

  function Verdict(r: BudgetReport, status: GroupStatus, reasons: seq<DecisionReason>, action: Action): GroupDecision {
    GroupDecision(r.groupId, status, None, reasons, Some(r), action)
  }

  function Decision(r: BudgetReport, p: BudgetPolicy): GroupDecision {
    if Vetoed(r) then Verdict(r, Quarantined, [VetoThresholdExceeded], Quarantine)
    else if HardReasons(r, p) != [] then Verdict(r, Quarantined, HardReasons(r, p), Quarantine)
    else if Overclipped(r, p) then Verdict(r, Correctable, [HighClippedFraction], TrainWithCorrection)
    else if ReplayReasons(r, p) != [] then Verdict(r, Accepted, ReplayReasons(r, p), Replay)
    else Verdict(r, Accepted, [WithinBudget], Train)
  }

  method DecideGroup(report: BudgetReport, policy: BudgetPolicy) returns (d: GroupDecision)
    ensures d == Decision(report, policy)
  {
    if report.vetoFraction > 0.0 {
      return Verdict(report, Quarantined, [VetoThresholdExceeded], Quarantine);
    }
    var quarantineReasons: seq<DecisionReason> := [];
    if report.policyLagSteps > policy.maxPolicyLagSteps {
      quarantineReasons := quarantineReasons + [StalePolicyLag];
    }
    if report.effectiveSampleSize < policy.minEss {
      quarantineReasons := quarantineReasons + [LowEss];
    }
    if report.routerFlipRate.Some? && report.routerFlipRate.value > policy.maxRouterFlipRate {
      quarantineReasons := quarantineReasons + [HighRouterFlipRate];
    }
    if quarantineReasons != [] {
      return Verdict(report, Quarantined, quarantineReasons, Quarantine);
    }
    if report.clippedFraction > policy.maxClippedFraction {
      return Verdict(report, Correctable, [HighClippedFraction], TrainWithCorrection);
    }
    var replayReasons: seq<DecisionReason> := [];
    if report.policyLagSteps > policy.replayLagThreshold {
      replayReasons := replayReasons + [ReplayTierLag];
    }
    if report.effectiveSampleSize < policy.replayEssThreshold {
      replayReasons := replayReasons + [ReplayTierEss];
    }
    if replayReasons != [] {
      return Verdict(report, Accepted, replayReasons, Replay);
    }
    d := Verdict(report, Accepted, [WithinBudget], Train);
  }
}
