/** What a budget report holds, token by token, in the numbers it is computed from. */
module BudgetLaws {
  import opened Wrappers
  import opened Contracts
  import opened Weights
  import opened Opbc
  import opened BudgetTheorems

  // ----- which tokens are scored

  /** Where the tokens with the action mask set and the tool mask clear stand. */
  function ActionPositions(action: seq<int>, tool: seq<int>): (p: seq<nat>)
    requires |action| == |tool|
    ensures forall i, j :: 0 <= i < j < |p| ==> p[i] < p[j]
    ensures forall i :: 0 <= i < |p| ==> p[i] < |action| && action[p[i]] != 0 && tool[p[i]] == 0
    ensures forall k | 0 <= k < |action| && action[k] != 0 && tool[k] == 0 :: k in p
  {
    if action == [] then []
    else
      var n := |action| - 1;
      ActionPositions(action[..n], tool[..n]) + if action[n] != 0 && tool[n] == 0 then [n] else []
  }

  predicate TakenAt(values: seq<real>, s: seq<real>, positions: seq<nat>) {
    |values| == |positions| && forall i :: 0 <= i < |positions| ==> positions[i] < |s| && values[i] == s[positions[i]]
  }

  lemma {:induction false} SelectedLaw(logprobs: seq<real>, action: seq<int>, tool: seq<int>)
    requires |logprobs| == |action| == |tool|
    ensures TakenAt(Selected(logprobs, action, tool), logprobs, ActionPositions(action, tool))
  {
    if logprobs == [] {
    } else {
      hide TakenAt;
      var n := |logprobs| - 1;
      SelectedLaw(logprobs[..n], action[..n], tool[..n]);
      TakenLast(Selected(logprobs[..n], action[..n], tool[..n]), logprobs, ActionPositions(action[..n], tool[..n]));
      assert ActionPositions(action[..n], tool[..n]) + [] == ActionPositions(action[..n], tool[..n]);
    }
  }

  lemma TakenLast(values: seq<real>, s: seq<real>, positions: seq<nat>)
    requires s != [] && TakenAt(values, s[..|s| - 1], positions)
    ensures TakenAt(values, s, positions) && TakenAt(values + [s[|s| - 1]], s, positions + [|s| - 1])
    ensures TakenAt(values + [], s, positions + [])
  {
  }

  /** A token of a group: its trajectory and its position there. */
  datatype Token = Token(trajectory: nat, position: nat)

  predicate Before(t: Token, u: Token) {
    t.trajectory < u.trajectory || (t.trajectory == u.trajectory && t.position < u.position)
  }

  predicate Scored(ts: seq<Trajectory>, t: Token) {
    && t.trajectory < |ts| && ts[t.trajectory].Valid() && t.position < |ts[t.trajectory].actionMask|
    && ts[t.trajectory].actionMask[t.position] != 0 && ts[t.trajectory].toolOutputMask[t.position] == 0
  }

  function TokensOf(trajectory: nat, positions: seq<nat>): (tokens: seq<Token>)
    ensures |tokens| == |positions|
    ensures forall i :: 0 <= i < |tokens| ==> tokens[i] == Token(trajectory, positions[i])
  {
    seq(|positions|, i requires 0 <= i < |positions| => Token(trajectory, positions[i]))
  }

  /** All scored tokens of a group, in reading order. */
  ghost function ScoredTokens(ts: seq<Trajectory>): (tokens: seq<Token>)
    requires forall i :: 0 <= i < |ts| ==> ts[i].Valid()
    ensures forall i, j :: 0 <= i < j < |tokens| ==> Before(tokens[i], tokens[j])
    ensures forall t :: t in tokens <==> Scored(ts, t)
  {
    if ts == [] then []
    else
      var n := |ts| - 1;
      assert ts[n].Valid();
      var positions := ActionPositions(ts[n].actionMask, ts[n].toolOutputMask);
      LastTokens(ts, positions);
      var before := ScoredTokens(ts[..n]);
      assert forall i :: 0 <= i < |before| ==> Scored(ts[..n], before[i]);
      before + TokensOf(n, positions)
  }

  /** The scored tokens of the last trajectory stand at its action positions. */
  lemma LastTokens(ts: seq<Trajectory>, positions: seq<nat>)
    requires ts != [] && ts[|ts| - 1].Valid()
    requires positions == ActionPositions(ts[|ts| - 1].actionMask, ts[|ts| - 1].toolOutputMask)
    ensures forall t :: Scored(ts, t) <==> Scored(ts[..|ts| - 1], t) || t in TokensOf(|ts| - 1, positions)
  {
    hide Scored, ActionPositions;
    forall t ensures Scored(ts, t) <==> Scored(ts[..|ts| - 1], t) || t in TokensOf(|ts| - 1, positions) {
      ScoredBefore(ts, t);
      if t.trajectory == |ts| - 1 {
        ScoredLast(ts, t, positions);
      }
    }
  }

  lemma ScoredBefore(ts: seq<Trajectory>, t: Token)
    requires ts != []
    ensures Scored(ts[..|ts| - 1], t) <==> t.trajectory != |ts| - 1 && Scored(ts, t)
  {
  }

  lemma ScoredLast(ts: seq<Trajectory>, t: Token, positions: seq<nat>)
    requires ts != [] && ts[|ts| - 1].Valid() && t.trajectory == |ts| - 1
    requires positions == ActionPositions(ts[|ts| - 1].actionMask, ts[|ts| - 1].toolOutputMask)
    ensures Scored(ts, t) <==> t in TokensOf(|ts| - 1, positions)
  {
    if Scored(ts, t) {
      var i :| 0 <= i < |positions| && positions[i] == t.position;
      assert TokensOf(|ts| - 1, positions)[i] == t;
    }
  }

  /** The values are the log-probabilities of these tokens, one by one. */
  ghost predicate ReadOff(ts: seq<Trajectory>, tokens: seq<Token>, values: seq<real>) {
    && |values| == |tokens|
    && forall j :: 0 <= j < |tokens| ==>
         && Scored(ts, tokens[j])
         && values[j] == ts[tokens[j].trajectory].rolloutLogprobs[tokens[j].position]
  }

  /** The values scored are the log-probabilities of exactly the scored tokens, in reading order. */
  lemma {:induction false} FlattenLaw(ts: seq<Trajectory>)
    requires forall i :: 0 <= i < |ts| ==> ts[i].Valid()
    ensures ReadOff(ts, ScoredTokens(ts), Flatten(ts))
  {
    if ts == [] {
    } else {
      hide ReadOff, Selected, Scored;
      var n := |ts| - 1;
      assert ts[n].Valid();
      FlattenLaw(ts[..n]);
      ReadOffLast(ts, ScoredTokens(ts[..n]), Flatten(ts[..n]));
    }
  }

  lemma {:induction false} ReadOffLast(ts: seq<Trajectory>, tokens: seq<Token>, values: seq<real>)
    requires ts != [] && ts[|ts| - 1].Valid() && ReadOff(ts[..|ts| - 1], tokens, values)
    ensures var n := |ts| - 1;
      var t := ts[n];
      ReadOff(ts, tokens + TokensOf(n, ActionPositions(t.actionMask, t.toolOutputMask)),
              values + Selected(t.rolloutLogprobs, t.actionMask, t.toolOutputMask))
  {
    hide Selected, ActionPositions, Scored;
    var n := |ts| - 1;
    var positions := ActionPositions(ts[n].actionMask, ts[n].toolOutputMask);
    SelectedLaw(ts[n].rolloutLogprobs, ts[n].actionMask, ts[n].toolOutputMask);
    forall j | 0 <= j < |tokens| ensures Scored(ts, tokens[j]) && ValueAt(ts, tokens[j], values[j]) {
      ScoredBefore(ts, tokens[j]);
      EarlierTrajectory(ts, tokens[j]);
    }
    forall t | t in TokensOf(n, positions) ensures Scored(ts, t) {
      ScoredLast(ts, t, positions);
    }
  }

  ghost predicate ValueAt(ts: seq<Trajectory>, t: Token, value: real) {
    && t.trajectory < |ts| && t.position < |ts[t.trajectory].rolloutLogprobs|
    && value == ts[t.trajectory].rolloutLogprobs[t.position]
  }

  lemma EarlierTrajectory(ts: seq<Trajectory>, t: Token)
    requires ts != [] && Scored(ts[..|ts| - 1], t)
    ensures t.trajectory < |ts| - 1 && t.position < |ts[t.trajectory].rolloutLogprobs|
    ensures ts[..|ts| - 1][t.trajectory] == ts[t.trajectory]
  {
  }

  // ----- the report

  /** Counting log-ratios beyond a bound counts positions. */
  lemma {:induction false} BeyondCounts(ratios: seq<real>, bound: real)
    ensures Beyond(ratios, bound) == |set i | 0 <= i < |ratios| && (ratios[i] > bound || -ratios[i] > bound)|
  {
    var beyond := set i | 0 <= i < |ratios| && (ratios[i] > bound || -ratios[i] > bound);
    if ratios == [] {
      assert beyond == {};
    } else {
      var n := |ratios| - 1;
      BeyondCounts(ratios[..n], bound);
      BeyondLast(ratios, bound);
      var before := set i | 0 <= i < |ratios[..n]| && (ratios[..n][i] > bound || -ratios[..n][i] > bound);
      assert beyond == if ratios[n] > bound || -ratios[n] > bound then before + {n} else before;
    }
  }

  lemma {:induction false} BeyondLast(ratios: seq<real>, bound: real)
    requires ratios != []
    ensures var n := |ratios| - 1;
      Beyond(ratios, bound) == Beyond(ratios[..n], bound) + if Abs(ratios[n]) > bound then 1 else 0
  {
    if |ratios| > 1 {
      BeyondLast(ratios[1..], bound);
      assert ratios[1..][..|ratios| - 2] == ratios[..|ratios| - 1][1..];
    }
  }

  /** Log-ratios: trainer less rollout, token by token. */
  ghost function Differences(group: SampleGroup, train: seq<real>): (d: seq<real>)
    requires group.Valid() && |train| == |ScoredTokens(group.trajectories)|
    ensures |d| == |train|
    ensures var tokens := ScoredTokens(group.trajectories);
      forall i :: 0 <= i < |d| ==>
        && Scored(group.trajectories, tokens[i])
        && d[i] == train[i] - group.trajectories[tokens[i].trajectory].rolloutLogprobs[tokens[i].position]
  {
    FlattenLaw(group.trajectories);
    LogRatios(Flatten(group.trajectories), train)
  }

  /** The weight of a token is the exponential of its log-ratio, brought into the band by numpy's clip. */
  ghost predicate AreWeights(w: seq<real>, d: seq<real>, clamp: real, exp: real -> real) {
    && |w| == |d|
    && forall i :: 0 <= i < |d| ==>
         w[i] == exp(if clamp < 0.0 || d[i] > clamp then clamp else if d[i] < -clamp then -clamp else d[i])
  }

  /** Mean, second moment, variance and effective sample size of the weights, without a quotient. */
  ghost predicate Summarizes(r: BudgetReport, w: seq<real>) {
    && r.meanWeight * |w| as real == Sum(w)
    && r.secondMoment * |w| as real == SumSq(w)
    && r.variance == r.secondMoment - Square(r.meanWeight)
    && r.effectiveSampleSize * (|w| as real * SumSq(w)) == Square(Sum(w))
  }

  /** The share of the log-ratios whose magnitude is strictly beyond a bound. */
  ghost predicate ShareBeyond(share: real, d: seq<real>, bound: real) {
    share * |d| as real == |set i | 0 <= i < |d| && (d[i] > bound || -d[i] > bound)| as real
  }

  lemma Rejoin(a: real, n: real)
    requires n != 0.0
    ensures a / n * n == a
  {
  }

  lemma {:induction false} MetricsLaw(group: SampleGroup, d: seq<real>, policy: BudgetPolicy, flip: Option<real>,
                                      exp: real -> real)
    requires d != [] && IsExp(exp)
    ensures var r := Metrics(group, d, policy, flip, exp);
      && AreWeights(WeightsOf(d, policy.clamp, exp), d, policy.clamp, exp)
      && Summarizes(r, WeightsOf(d, policy.clamp, exp))
  {
    hide IsExp, Sum, SumSq, EssOf, Notes, Beyond, Deviations, Square, Fraction, AllPositive;
    var w := WeightsOf(d, policy.clamp, exp);
    WeightsPositive(d, policy.clamp, exp);
    PositiveSums(w);
    VarianceIdentity(w);
    Rejoin(Sum(w), |w| as real);
    Rejoin(SumSq(w), |w| as real);
    EssRejoined(|w| as real, Sum(w), SumSq(w));
  }

  lemma EssRejoined(n: real, total: real, squares: real)
    requires n > 0.0 && squares > 0.0
    ensures EssOf(n, total, squares) * (n * squares) == Square(total)
  {
    PositiveProduct(n, squares);
    Rejoin(Square(total), n * squares);
  }

  lemma {:induction false} ShareLaw(d: seq<real>, bound: real)
    requires d != []
    ensures ShareBeyond(Fraction(Beyond(d, bound), |d|), d, bound)
  {
    hide Beyond;
    BeyondCounts(d, bound);
    Rejoin(Beyond(d, bound) as real, |d| as real);
  }

  /** What a report states about its group, the log-ratios of its tokens and the policy. */
  ghost predicate Measures(r: BudgetReport, group: SampleGroup, d: seq<real>, policy: BudgetPolicy, flip: Option<real>,
                           exp: real -> real)
  {
    && (exists w :: AreWeights(w, d, policy.clamp, exp) && Summarizes(r, w))
    && ShareBeyond(r.clippedFraction, d, policy.clamp)
    && ShareBeyond(r.vetoFraction, d, policy.vetoAbsLogRatio)
    && (forall i :: 0 <= i < |d| ==> -r.maxAbsLogRatio <= d[i] <= r.maxAbsLogRatio)
    && (r.maxAbsLogRatio in d || -r.maxAbsLogRatio in d)
    && r.groupId == group.groupId && r.policyLagSteps == group.policyLagSteps && r.routerFlipRate == flip
    && ("low effective sample size" in r.notes <==> r.effectiveSampleSize < policy.minEss)
    && ("high clipped fraction" in r.notes <==> r.clippedFraction > policy.maxClippedFraction)
    && ("policy lag exceeds limit" in r.notes <==> group.policyLagSteps > policy.maxPolicyLagSteps)
    && ("router_flip_rate exceeds limit" in r.notes <==> flip.Some? && flip.value > policy.maxRouterFlipRate)
  }

  lemma {:induction false} MeasuresLaw(group: SampleGroup, d: seq<real>, policy: BudgetPolicy, flip: Option<real>,
                                       exp: real -> real)
    requires d != [] && IsExp(exp)
    ensures Measures(Metrics(group, d, policy, flip, exp), group, d, policy, flip, exp)
  {
    hide IsExp, Metrics, AreWeights, Summarizes, ShareBeyond, Sum, SumSq, Notes, Beyond, Fraction, MaxAbs;
    var r := Metrics(group, d, policy, flip, exp);
    MetricsLaw(group, d, policy, flip, exp);
    ShareLaw(d, policy.clamp);
    ShareLaw(d, policy.vetoAbsLogRatio);
    EchoLaw(group, d, policy, flip, exp);
    LargestLaw(d);
    NotesLaw(r.effectiveSampleSize, r.clippedFraction, r.policyLagSteps, flip, policy);
  }

  /**
   The report is refused exactly when the trainer's values do not match the scored tokens or there is
   none; otherwise every figure in it is the stated function of the log-ratios, and the notes name
   the broken limits.
   */
  lemma {:induction false} ReportLaw(group: SampleGroup, train: seq<real>, policy: BudgetPolicy, flip: Option<real>,
                                     exp: real -> real)
    requires group.Valid() && IsExp(exp)
    ensures var report, tokens := Report(group, train, policy, flip, exp), ScoredTokens(group.trajectories);
      if |train| != |tokens| || tokens == [] then report == Raised(InvalidValue)
      else report.Ok? && Measures(report.value, group, Differences(group, train), policy, flip, exp)
  {
    hide IsExp, Flatten, Metrics, Measures, LogRatios, ScoredTokens;
    FlattenLaw(group.trajectories);
    if |train| == |ScoredTokens(group.trajectories)| != 0 {
      MeasuresLaw(group, Differences(group, train), policy, flip, exp);
    }
  }

  lemma EchoLaw(group: SampleGroup, d: seq<real>, policy: BudgetPolicy, flip: Option<real>, exp: real -> real)
    requires d != [] && IsExp(exp)
    ensures var r := Metrics(group, d, policy, flip, exp);
      && r.maxAbsLogRatio == MaxAbs(d)
      && r.groupId == group.groupId && r.policyLagSteps == group.policyLagSteps && r.routerFlipRate == flip
      && r.clippedFraction == Fraction(Beyond(d, policy.clamp), |d|)
      && r.vetoFraction == Fraction(Beyond(d, policy.vetoAbsLogRatio), |d|)
      && r.notes == Notes(r.effectiveSampleSize, r.clippedFraction, r.policyLagSteps, flip, policy)
  {
    hide IsExp, Sum, SumSq, EssOf, Beyond, Deviations, Square, AllPositive, Fraction, Notes, MaxAbs;
  }

  lemma LargestLaw(d: seq<real>)
    requires d != []
    ensures forall i :: 0 <= i < |d| ==> -MaxAbs(d) <= d[i] <= MaxAbs(d)
    ensures MaxAbs(d) in d || -MaxAbs(d) in d
  {
    hide MaxAbs;
    var i :| 0 <= i < |d| && Abs(d[i]) == MaxAbs(d);
    assert d[i] in d;
  }

  lemma NotesLaw(ess: real, clipped: real, lag: int, flip: Option<real>, policy: BudgetPolicy)
    ensures var notes := Notes(ess, clipped, lag, flip, policy);
      && ("low effective sample size" in notes <==> ess < policy.minEss)
      && ("high clipped fraction" in notes <==> clipped > policy.maxClippedFraction)
      && ("policy lag exceeds limit" in notes <==> lag > policy.maxPolicyLagSteps)
      && ("router_flip_rate exceeds limit" in notes <==> flip.Some? && flip.value > policy.maxRouterFlipRate)
  {
  }
}
