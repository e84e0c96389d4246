/** What becomes of each worker profile of the simulation: the decision every one of its groups gets. */
module Profiles {
  import opened Wrappers
  import opened Contracts
  import opened Weights
  import opened Opbc
  import opened BudgetTheorems
  import opened Validators
  import opened WorkerLoop
  import opened Simulation

  /** A lease of the simulation's jobs: it fits the manifest, the fixed tokenizer and the fixed prompt. */
  ghost predicate SimLease(lease: RolloutLease, manifest: PolicyManifest) {
    && lease.Valid() && lease.policyVersion == manifest.policyVersion && lease.policyVersion != "v9999"
    && manifest.checkpointDigest == "sha256:sim-ckpt" && manifest.tokenizerHash == "tok-honest"
    && lease.requiredPrecisionClass != "fp16" && lease.requiredQuantizationClass in {None, Some("")}
    && lease.maxContextTokens >= 7
  }

  ghost predicate SmallNoise(noise: seq<real>) {
    |noise| == 3 && forall k :: 0 <= k < 3 ==> -0.02 <= noise[k] <= 0.02
  }

  ghost predicate IsCopies(ts: seq<Trajectory>, t: Trajectory) {
    forall i :: 0 <= i < |ts| ==> ts[i] == t
  }

  // ----- the validators' part

  lemma {:induction false} MadeTrajectories(lease: RolloutLease, profile: Profile, noise: seq<real>)
    requires lease.Valid() && |noise| == 3
    ensures var group := MakeGroup(lease, profile, noise);
      && |group.trajectories| == lease.groupSize && IsCopies(group.trajectories, MakeTrajectory(profile, noise))
      && |group.promptTokenIds| == 4
  {
  }

  lemma {:induction false} CopiesViolation(ts: seq<Trajectory>, t: Trajectory)
    requires ts != [] && IsCopies(ts, t)
    ensures FirstTrajectoryViolation(ts) == TrajectoryViolation(t)
    ensures Longest(4, ts) == 4 + |t.responseTokenIds|
  {
    hide TrajectoryViolation;
    assert ts[0] == t;
    if |ts| > 1 {
      CopiesViolation(ts[1..], t);
    } else {
      assert ts[1..] == [];
    }
  }

  lemma {:induction false} MadeTrajectoryViolation(profile: Profile, noise: seq<real>)
    requires SmallNoise(noise)
    ensures TrajectoryViolation(MakeTrajectory(profile, noise)) ==
      if profile.ToxicNoLogprobs? then Some(MissingLogprobs) else None
    ensures |MakeTrajectory(profile, noise).responseTokenIds| == 3
  {
    var r := RolloutLogprobs(profile, noise);
    if !profile.ToxicNoLogprobs? {
      assert r[0] != 0.0;
      assert !AllZero(r);
    }
  }

  function ToxicReason(profile: Profile): Option<RejectionReason> {
    match profile
    case ToxicVersionDrift => Some(PolicyVersionMismatch)
    case ToxicTokenizer => Some(TokenizerMismatch)
    case ToxicPrecision => Some(PrecisionMismatch)
    case ToxicNoLogprobs => Some(MissingLogprobs)
    case _ => None
  }

  lemma {:induction false} FirstFaultOf(lease: RolloutLease, profile: Profile, noise: seq<real>, now: real,
                                        manifest: PolicyManifest)
    requires SimLease(lease, manifest) && SmallNoise(noise)
    ensures FirstViolation(MakeGroup(lease, profile, noise), lease, manifest, now) ==
      if lease.IsExpired(now) then Some(ExpiredLease) else ToxicReason(profile)
  {
    hide MakeTrajectory, FirstTrajectoryViolation, Longest, TrajectoryViolation, IsCopies;
    MadeTrajectories(lease, profile, noise);
    MadeTrajectoryViolation(profile, noise);
    CopiesViolation(MakeGroup(lease, profile, noise).trajectories, MakeTrajectory(profile, noise));
  }

  // ----- the tokens of a group of identical trajectories

  function Repeat(s: seq<real>, n: nat): (r: seq<real>)
    ensures |r| == n * |s|
  {
    if n == 0 then [] else Repeat(s, n - 1) + s
  }

  lemma {:induction false} RepeatMembers(s: seq<real>, n: nat)
    ensures forall x :: x in Repeat(s, n) ==> x in s
    ensures n > 0 ==> forall x :: x in s ==> x in Repeat(s, n)
  {
    if n == 0 {
    } else {
      RepeatMembers(s, n - 1);
    }
  }

  lemma {:induction false} OneTrajectory(profile: Profile, noise: seq<real>)
    requires |noise| == 3
    ensures var t := MakeTrajectory(profile, noise);
      && Selected(t.rolloutLogprobs, t.actionMask, t.toolOutputMask) == t.rolloutLogprobs
      && TrainFor(t.actionMask, t.toolOutputMask) == BASELINE
  {
    hide RolloutLogprobs;
    ThreeTokens(RolloutLogprobs(profile, noise));
  }

  lemma {:induction false} ThreeTokens(r: seq<real>)
    requires |r| == 3
    ensures Selected(r, [1, 1, 1], [0, 0, 0]) == r && TrainFor([1, 1, 1], [0, 0, 0]) == BASELINE
  {
    assert [1, 1, 1][..2] == [1, 1] && [1, 1][..1] == [1] && [1][..0] == [];
    assert [0, 0, 0][..2] == [0, 0] && [0, 0][..1] == [0] && [0][..0] == [];
    assert r[..2][..1] == r[..1] && r[..1][..0] == [];
    assert Selected(r[..1], [1], [0]) == [r[0]];
    assert Selected(r[..2], [1, 1], [0, 0]) == [r[0], r[1]];
    assert TrainFor([1], [0]) == [BASELINE[0]];
    assert TrainFor([1, 1], [0, 0]) == [BASELINE[0], BASELINE[1]];
  }

  lemma {:induction false} CopiesTokens(ts: seq<Trajectory>, t: Trajectory)
    requires t.Valid() && IsCopies(ts, t)
    ensures forall i :: 0 <= i < |ts| ==> ts[i].Valid()
    ensures Flatten(ts) == Repeat(Selected(t.rolloutLogprobs, t.actionMask, t.toolOutputMask), |ts|)
    ensures TrainStream(ts) == Repeat(TrainFor(t.actionMask, t.toolOutputMask), |ts|)
  {
    hide Selected, TrainFor;
    if ts == [] {
    } else {
      CopiesTokens(ts[..|ts| - 1], t);
    }
  }

  function Differences(r: seq<real>): (d: seq<real>)
    requires |r| == 3
    ensures |d| == 3
  {
    [BASELINE[0] - r[0], BASELINE[1] - r[1], BASELINE[2] - r[2]]
  }

  lemma {:induction false} RepeatRatios(r: seq<real>, n: nat)
    requires |r| == 3
    ensures |Repeat(r, n)| == |Repeat(BASELINE, n)|
    ensures LogRatios(Repeat(r, n), Repeat(BASELINE, n)) == Repeat(Differences(r), n)
  {
    if n == 0 {
    } else {
      RepeatRatios(r, n - 1);
      assert LogRatios(r, BASELINE) == Differences(r);
      var a, b := Repeat(r, n - 1), Repeat(BASELINE, n - 1);
      assert LogRatios(a + r, b + BASELINE) == LogRatios(a, b) + LogRatios(r, BASELINE);
    }
  }

  /** The log-ratios of a made group are those of one trajectory, repeated. */
  lemma {:induction false} MadeRatios(lease: RolloutLease, profile: Profile, noise: seq<real>)
    requires lease.Valid() && |noise| == 3
    ensures var ts := MakeGroup(lease, profile, noise).trajectories;
      && |Flatten(ts)| == |TrainStream(ts)| && Flatten(ts) != []
      && LogRatios(Flatten(ts), TrainStream(ts))
         == Repeat(Differences(RolloutLogprobs(profile, noise)), lease.groupSize)
  {
    hide Flatten, TrainStream, LogRatios, Repeat, Differences, RolloutLogprobs;
    var ts := MakeGroup(lease, profile, noise).trajectories;
    MadeTrajectories(lease, profile, noise);
    OneTrajectory(profile, noise);
    CopiesTokens(ts, MakeTrajectory(profile, noise));
    RepeatRatios(RolloutLogprobs(profile, noise), lease.groupSize);
  }

  // ----- a narrow band keeps the effective sample size high

  lemma ExpAtZero(exp: real -> real)
    requires IsExp(exp)
    ensures exp(0.0) == 1.0
  {
    hide IsExp;
    ExpPositive(exp, 0.0);
    ExpInverse(exp, 0.0);
    assert -0.0 == 0.0;
    UnitSquare(exp(0.0));
  }

  lemma UnitSquare(x: real)
    requires x > 0.0 && x * x == 1.0
    ensures x == 1.0
  {
  }

  lemma NarrowBand(exp: real -> real, m: real)
    requires IsExp(exp) && AboveTangent(exp) && 0.0 <= m <= 0.025
    ensures Bound(m, exp) >= 0.9
  {
    hide IsExp;
    ExpAtZero(exp);
    ExpMonotone(exp, -m, 0.0);
    ExpPositive(exp, m);
    ExpPositive(exp, -m);
    Inverse(exp, m);
    assert exp(-m) >= 0.975;
    hide AboveTangent;
    Reciprocal(exp(-m), exp(m));
    NarrowSquare(exp(-m) + exp(m));
  }

  lemma Reciprocal(x: real, y: real)
    requires 0.975 <= x && y > 0.0 && x * y == 1.0
    ensures y <= 1.03
  {
  }

  lemma NarrowSquare(c: real)
    requires 0.0 < c <= 2.03 && Square(c) > 0.0
    ensures 4.0 / Square(c) >= 0.9
  {
    ProductSign(2.03 - c, 2.03 + c);
    assert (2.03 - c) * (2.03 + c) == 2.03 * 2.03 - Square(c);
    QuotientBounds(4.0, Square(c), 0.9);
  }

  // ----- one clipped token in three

  lemma {:induction false} SumRepeat(s: seq<real>, n: nat)
    ensures Sum(Repeat(s, n)) == Times(n as real, Sum(s)) && SumSq(Repeat(s, n)) == Times(n as real, SumSq(s))
  {
    if n == 0 {
      assert Times(0.0, Sum(s)) == 0.0 && Times(0.0, SumSq(s)) == 0.0;
    } else {
      hide Square, Sum, SumSq;
      SumRepeat(s, n - 1);
      SumConcat(Repeat(s, n - 1), s);
      OneMore((n - 1) as real, Sum(s));
      OneMore((n - 1) as real, SumSq(s));
      hide Times;
      assert (n - 1) as real + 1.0 == n as real;
    }
  }

  lemma {:induction false} BeyondRepeat(s: seq<real>, n: nat, bound: real)
    ensures Beyond(Repeat(s, n), bound) == n * Beyond(s, bound)
  {
    if n == 0 {
    } else {
      BeyondRepeat(s, n - 1, bound);
      BeyondConcat(Repeat(s, n - 1), s, bound);
    }
  }

  lemma {:induction false} BeyondConcat(a: seq<real>, b: seq<real>, bound: real)
    ensures Beyond(a + b, bound) == Beyond(a, bound) + Beyond(b, bound)
  {
    if a == [] {
      assert a + b == b;
    } else {
      assert (a + b)[1..] == a[1..] + b;
      BeyondConcat(a[1..], b, bound);
    }
  }

  lemma {:induction false} WeightsRepeat(s: seq<real>, n: nat, clamp: real, exp: real -> real)
    ensures WeightsOf(Repeat(s, n), clamp, exp) == Repeat(WeightsOf(s, clamp, exp), n)
  {
    hide Clip;
    if n == 0 {
    } else {
      WeightsRepeat(s, n - 1, clamp, exp);
    }
  }

  /** Repeating a sample does not change how even it is. */
  lemma EssOfRepeated(k: real, n: real, total: real, squares: real)
    requires k > 0.0 && n > 0.0 && squares > 0.0
    ensures Times(n, squares) > 0.0 && Times(n, k) > 0.0
    ensures EssOf(Times(n, k), Times(n, total), Times(n, squares)) == EssOf(k, total, squares)
  {
  }

  lemma {:induction false} RepeatedEss(s: seq<real>, n: nat)
    requires n > 0 && s != [] && AllPositive(s) && AllPositive(Repeat(s, n))
    ensures SumSq(Repeat(s, n)) > 0.0 && SumSq(s) > 0.0
    ensures Ess(Repeat(s, n)) == Ess(s) >= 1.0 / |s| as real
  {
    hide Sum, SumSq, Times, Square, EssOf, AllPositive, Repeat;
    PositiveSums(s);
    PositiveSums(Repeat(s, n));
    SumRepeat(s, n);
    EssRange(s);
    RealProduct(n, |s|);
    EssOfRepeated(|s| as real, n as real, Sum(s), SumSq(s));
  }

  lemma RealProduct(n: nat, k: nat)
    ensures (n * k) as real == Times(n as real, k as real)
  {
  }

  // ----- the budget's part

  function MadeReport(lease: RolloutLease, profile: Profile, noise: seq<real>, exp: real -> real): Result<BudgetReport>
    requires lease.Valid() && |noise| == 3 && IsExp(exp)
  {
    var group := MakeGroup(lease, profile, noise);
    Report(group, TrainStream(group.trajectories), DEFAULT_POLICY, None, exp)
  }

  /** What decides about a made group that the validators pass, read off one trajectory. */
  lemma {:induction false} MadeReportFacts(lease: RolloutLease, profile: Profile, noise: seq<real>, exp: real -> real)
    requires lease.Valid() && |noise| == 3 && IsExp(exp)
    ensures MadeReport(lease, profile, noise, exp).Ok?
    ensures var r := MadeReport(lease, profile, noise, exp).value;
      var d := Differences(RolloutLogprobs(profile, noise));
      && r.policyLagSteps == (if profile.Stale? then 12 else 1) && r.routerFlipRate.None?
      && (Vetoed(r) <==> exists x :: x in d && Abs(x) > 30.0)
      && r.clippedFraction == Fraction(Beyond(d, 20.0), 3)
      && r.effectiveSampleSize >= 1.0 / 3.0
      && (exists x :: x in d && Abs(x) == r.maxAbsLogRatio)
  {
    hide IsExp, Flatten, TrainStream, Differences, RolloutLogprobs, Metrics, LogRatios, Repeat, MakeTrajectory;
    MadeRatios(lease, profile, noise);
    RepeatedMetrics(MakeGroup(lease, profile, noise), Differences(RolloutLogprobs(profile, noise)), lease.groupSize,
                    exp);
  }

  lemma {:induction false} RepeatedMetrics(group: SampleGroup, d: seq<real>, n: nat, exp: real -> real)
    requires n > 0 && |d| == 3 && IsExp(exp)
    ensures Repeat(d, n) != []
    ensures var r := Metrics(group, Repeat(d, n), DEFAULT_POLICY, None, exp);
      && r.policyLagSteps == group.policyLagSteps && r.routerFlipRate.None?
      && (Vetoed(r) <==> exists x :: x in d && Abs(x) > 30.0)
      && r.clippedFraction == Fraction(Beyond(d, 20.0), 3)
      && r.effectiveSampleSize >= 1.0 / 3.0
      && (exists x :: x in d && Abs(x) == r.maxAbsLogRatio)
  {
    hide IsExp, Sum, SumSq, EssOf, Notes, Beyond, Deviations, Fraction, Repeat, Abs;
    RepeatMembers(d, n);
    BeyondRepeat(d, n, 20.0);
    BeyondRepeat(d, n, 30.0);
    FractionRepeat(Beyond(d, 20.0), n);
    FractionRepeat(Beyond(d, 30.0), n);
    FractionSign(Beyond(d, 30.0), 3);
    BeyondNone(d, 30.0);
    WeightsRepeat(d, n, 20.0, exp);
    WeightsPositive(d, 20.0, exp);
    WeightsPositive(Repeat(d, n), 20.0, exp);
    RepeatedEss(WeightsOf(d, 20.0, exp), n);
  }

  lemma FractionRepeat(k: nat, n: nat)
    requires n > 0
    ensures n * 3 > 0 && Fraction(n * k, n * 3) == Fraction(k, 3)
  {
  }

  lemma {:induction false} NoisyClips(noise: seq<real>)
    requires |noise| == 3
    ensures var d := Differences(RolloutLogprobs(Noisy, noise));
      && Beyond(d, 20.0) == 1 && forall x :: x in d ==> Abs(x) <= 30.0
  {
    var d := Differences(RolloutLogprobs(Noisy, noise));
    assert d[1..] == [d[1], d[2]] && d[1..][1..] == [d[2]] && d[1..][1..][1..] == [];
    assert Beyond([d[2]], 20.0) == 1;
    assert Beyond([d[1], d[2]], 20.0) == 1;
  }

  lemma {:induction false} HonestIsClose(profile: Profile, noise: seq<real>)
    requires SmallNoise(noise) && profile in {Honest, Stale}
    ensures forall x :: x in Differences(RolloutLogprobs(profile, noise)) ==> Abs(x) <= 0.025
  {
  }

  lemma {:induction false} CloseReport(lease: RolloutLease, profile: Profile, noise: seq<real>, exp: real -> real)
    requires lease.Valid() && SmallNoise(noise) && IsExp(exp) && AboveTangent(exp) && profile in {Honest, Stale}
    ensures MadeReport(lease, profile, noise, exp).Ok?
    ensures var r := MadeReport(lease, profile, noise, exp).value;
      !Vetoed(r) && r.clippedFraction == 0.0 && r.effectiveSampleSize >= 0.9
  {
    hide IsExp, AboveTangent, Differences, RolloutLogprobs, Bound, Report, Fraction;
    MadeReportFacts(lease, profile, noise, exp);
    HonestIsClose(profile, noise);
    var group := MakeGroup(lease, profile, noise);
    ClampBoundsEss(group, TrainStream(group.trajectories), DEFAULT_POLICY, None, exp);
    var r := MadeReport(lease, profile, noise, exp).value;
    NarrowBand(exp, r.maxAbsLogRatio);
    BeyondNone(Differences(RolloutLogprobs(profile, noise)), 20.0);
    FractionOfNone();
    AllWithin(Differences(RolloutLogprobs(profile, noise)));
  }

  lemma FractionOfNone()
    ensures Fraction(0, 3) == 0.0
  {
  }

  lemma AllWithin(d: seq<real>)
    requires forall x :: x in d ==> Abs(x) <= 0.025
    ensures Beyond(d, 20.0) == 0
  {
  }

  /** The decision each profile's groups get while the lease is live. */
  function Expected(profile: Profile): (GroupStatus, Action, seq<DecisionReason>, Option<RejectionReason>) {
    match profile
    case Honest => (Accepted, Train, [WithinBudget], None)
    case Noisy => (Correctable, TrainWithCorrection, [HighClippedFraction], None)
    case Stale => (Quarantined, Quarantine, [StalePolicyLag], None)
    case _ => (Rejected, Reject, [], ToxicReason(profile))
  }

  lemma {:induction false} MadeDecision(lease: RolloutLease, profile: Profile, noise: seq<real>, exp: real -> real)
    requires lease.Valid() && SmallNoise(noise) && IsExp(exp) && AboveTangent(exp)
    requires profile in {Honest, Noisy, Stale} && MadeReport(lease, profile, noise, exp).Ok?
    ensures var d := Decision(MadeReport(lease, profile, noise, exp).value, DEFAULT_POLICY);
      (d.status, d.recommendedAction, d.decisionReasons, d.rejectionReason) == Expected(profile)
  {
    hide IsExp, AboveTangent, Differences, RolloutLogprobs, MadeReport, Fraction, Beyond;
    MadeReportFacts(lease, profile, noise, exp);
    if profile.Noisy? {
      NoisyClips(noise);
      OneThird();
    } else {
      CloseReport(lease, profile, noise, exp);
      var r := MadeReport(lease, profile, noise, exp).value;
      assert HardReasons(r, DEFAULT_POLICY) == if profile.Stale? then [StalePolicyLag] else [];
      assert profile.Honest? ==> ReplayReasons(r, DEFAULT_POLICY) == [];
    }
  }

  lemma OneThird()
    ensures Fraction(1, 3) > 0.10 && 1.0 / 3.0 > 0.30
  {
  }

  /**
   The simulation tells the profiles apart: honest groups train, noisy ones train with correction,
   stale ones are quarantined and each toxic profile is rejected for its own reason; after expiry
   every group is rejected for that.
   */
  lemma {:induction false} ProfilesAreToldApart(lease: RolloutLease, profile: Profile, noise: seq<real>, now: real,
                                                s: Setting)
    requires SimLease(lease, s.manifest) && SmallNoise(noise) && s.policy == DEFAULT_POLICY
    requires Fit(s) && AboveTangent(s.exp)
    ensures var v := Simulation.Verdict(lease, profile, noise, now, s);
      && v.Ok?
      && var d := v.value;
      (d.status, d.recommendedAction, d.decisionReasons, d.rejectionReason) ==
        (if lease.IsExpired(now) then (Rejected, Reject, [], Some(ExpiredLease)) else Expected(profile))
  {
    hide IsExp, AboveTangent, MakeGroup, TrainStream, Report, Decision, FirstViolation, SmallNoise;
    FirstFaultOf(lease, profile, noise, now, s.manifest);
    if !lease.IsExpired(now) && profile in {Honest, Noisy, Stale} {
      NoiseCount(noise);
      var group := MakeGroup(lease, profile, noise);
      assert s.trainOf(group) == TrainStream(group.trajectories);
      MadeReportFacts(lease, profile, noise, s.exp);
      MadeDecision(lease, profile, noise, s.exp);
    }
  }

  lemma NoiseCount(noise: seq<real>)
    requires SmallNoise(noise)
    ensures |noise| == 3
  {
  }
}
