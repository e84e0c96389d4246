/** The contract check a group must pass, against its lease and the policy manifest, before its budget is scored. */
module Validators {
  import opened Wrappers
  import opened Contracts

  function Rejection(group: SampleGroup, reason: RejectionReason): GroupDecision {
    GroupDecision(group.groupId, Rejected, Some(reason), [], None, Reject)
  }

  /** `x or None`: an absent class and an empty one count as the same. */
  function Normalized(quantization: Option<string>): Option<string> {
    if quantization == Some("") then None else quantization
  }

  predicate AllZero(logprobs: seq<real>) {
    forall i :: 0 <= i < |logprobs| ==> logprobs[i] == 0.0
  }

  function TrajectoryViolation(t: Trajectory): Option<RejectionReason> {
    if t.responseTokenIds == [] then Some(MissingTokenIds)
    else if t.rolloutLogprobs == [] || AllZero(t.rolloutLogprobs) then Some(MissingLogprobs)
    else None
  }

  function FirstTrajectoryViolation(ts: seq<Trajectory>): Option<RejectionReason> {
    if ts == [] then None
    else if TrajectoryViolation(ts[0]).Some? then TrajectoryViolation(ts[0])
    else FirstTrajectoryViolation(ts[1..])
  }

  function Longest(prompt: nat, ts: seq<Trajectory>): nat {
    if ts == [] then 0
    else
      var first, rest := prompt + |ts[0].responseTokenIds|, Longest(prompt, ts[1..]);
      if first >= rest then first else rest
  }

  function FirstViolation(group: SampleGroup, lease: RolloutLease, manifest: PolicyManifest, now: real)
    : Option<RejectionReason>
  {
    if lease.IsExpired(now) then Some(ExpiredLease)
    else if group.policyVersion != lease.policyVersion then Some(PolicyVersionMismatch)
    else if group.policyVersion != manifest.policyVersion then Some(MixedPolicyVersion)
    else if group.checkpointDigest != manifest.checkpointDigest then Some(CheckpointMismatch)
    else if group.tokenizerHash != manifest.tokenizerHash then Some(TokenizerMismatch)
    else if group.precisionClass != lease.requiredPrecisionClass then Some(PrecisionMismatch)
    else if Normalized(lease.requiredQuantizationClass) != Normalized(group.quantizationClass) then
      Some(QuantizationMismatch)
    else if |group.trajectories| != lease.groupSize then Some(GroupSizeMismatch)
    else if group.promptTokenIds == [] then Some(MissingTokenIds)
    else if FirstTrajectoryViolation(group.trajectories).Some? then FirstTrajectoryViolation(group.trajectories)
    else if Longest(|group.promptTokenIds|, group.trajectories) > lease.maxContextTokens then Some(ContextOverflow)
    else None
  }

  /** `None` means contract-clean: proceed to budget scoring. */
  function Validate(group: SampleGroup, lease: RolloutLease, manifest: PolicyManifest, now: real)
    : Option<GroupDecision>
  {
    match FirstViolation(group, lease, manifest, now)
    case None => None
    case Some(reason) => Some(Rejection(group, reason))
  }

  // ----- what a clean group is, without an order of checks

  ghost predicate UsableTrajectory(t: Trajectory) {
    t.responseTokenIds != [] && exists i :: 0 <= i < |t.rolloutLogprobs| && t.rolloutLogprobs[i] != 0.0
  }

  ghost predicate ContractClean(group: SampleGroup, lease: RolloutLease, manifest: PolicyManifest) {
    && group.policyVersion == lease.policyVersion == manifest.policyVersion
    && group.checkpointDigest == manifest.checkpointDigest
    && group.tokenizerHash == manifest.tokenizerHash
    && group.precisionClass == lease.requiredPrecisionClass
    && (group.quantizationClass == lease.requiredQuantizationClass
        || (group.quantizationClass in {None, Some("")} && lease.requiredQuantizationClass in {None, Some("")}))
    && |group.trajectories| == lease.groupSize
    && group.promptTokenIds != []
    && (forall t :: t in group.trajectories ==>
          UsableTrajectory(t) && |group.promptTokenIds| + |t.responseTokenIds| <= lease.maxContextTokens)
  }

  /** Which single fault a reason stands for, whatever else is wrong with the group. */
  ghost predicate Exhibits(reason: RejectionReason, group: SampleGroup, lease: RolloutLease, manifest: PolicyManifest,
                           now: real)
  {
    match reason
    case ExpiredLease => lease.IsExpired(now)
    case PolicyVersionMismatch => group.policyVersion != lease.policyVersion
    case MixedPolicyVersion => group.policyVersion != manifest.policyVersion
    case CheckpointMismatch => group.checkpointDigest != manifest.checkpointDigest
    case TokenizerMismatch => group.tokenizerHash != manifest.tokenizerHash
    case PrecisionMismatch => group.precisionClass != lease.requiredPrecisionClass
    case QuantizationMismatch => Normalized(lease.requiredQuantizationClass) != Normalized(group.quantizationClass)
    case GroupSizeMismatch => |group.trajectories| != lease.groupSize
    case MissingTokenIds =>
      group.promptTokenIds == [] || exists t :: t in group.trajectories && t.responseTokenIds == []
    case MissingLogprobs =>
      exists t :: t in group.trajectories && t.responseTokenIds != [] && AllZero(t.rolloutLogprobs)
    case ContextOverflow =>
      exists t :: t in group.trajectories && |group.promptTokenIds| + |t.responseTokenIds| > lease.maxContextTokens
    case IdempotencyKeyMismatch => false
  }

  /** The place of a reason in the order in which faults are looked for. */
  function Rank(reason: RejectionReason): nat {
    match reason
    case ExpiredLease => 0
    case PolicyVersionMismatch => 1
    case MixedPolicyVersion => 2
    case CheckpointMismatch => 3
    case TokenizerMismatch => 4
    case PrecisionMismatch => 5
    case QuantizationMismatch => 6
    case GroupSizeMismatch => 7
    case MissingTokenIds => 8
    case MissingLogprobs => 8
    case ContextOverflow => 9
    case IdempotencyKeyMismatch => 10
  }

  lemma {:induction false} TrajectoriesUsable(ts: seq<Trajectory>)
    ensures FirstTrajectoryViolation(ts).None? <==> forall t :: t in ts ==> UsableTrajectory(t)
    ensures FirstTrajectoryViolation(ts) == Some(MissingTokenIds) ==> exists t :: t in ts && t.responseTokenIds == []
    ensures FirstTrajectoryViolation(ts) == Some(MissingLogprobs) ==>
      exists t :: t in ts && t.responseTokenIds != [] && AllZero(t.rolloutLogprobs)
    ensures FirstTrajectoryViolation(ts).Some? ==>
      FirstTrajectoryViolation(ts).value in {MissingTokenIds, MissingLogprobs}
  {
    if ts == [] {
    } else {
      assert forall t :: t in ts <==> t == ts[0] || t in ts[1..];
      TrajectoriesUsable(ts[1..]);
      if TrajectoryViolation(ts[0]).None? {
        assert UsableTrajectory(ts[0]);
      } else {
        assert !UsableTrajectory(ts[0]) && ts[0] in ts;
      }
    }
  }

  lemma {:induction false} LongestBounds(prompt: nat, ts: seq<Trajectory>, limit: nat)
    ensures Longest(prompt, ts) <= limit <==> forall t :: t in ts ==> prompt + |t.responseTokenIds| <= limit
  {
    if ts == [] {
    } else {
      assert forall t :: t in ts <==> t == ts[0] || t in ts[1..];
      LongestBounds(prompt, ts[1..], limit);
    }
  }

  /** The check passes a group exactly when the lease is live and the group is contract-clean. */
  lemma {:induction false} CleanIff(group: SampleGroup, lease: RolloutLease, manifest: PolicyManifest, now: real)
    requires lease.Valid()
    ensures Validate(group, lease, manifest, now).None? <==>
      !lease.IsExpired(now) && ContractClean(group, lease, manifest)
  {
    hide FirstTrajectoryViolation, Longest, UsableTrajectory;
    TrajectoriesUsable(group.trajectories);
    LongestBounds(|group.promptTokenIds|, group.trajectories, lease.maxContextTokens);
  }

  /**
   A rejection is well formed, names a fault the group has, and no fault that is looked for
   earlier is present.
   */
  lemma {:induction false} RejectionNamesFirstFault(group: SampleGroup, lease: RolloutLease, manifest: PolicyManifest,
                                                    now: real)
    requires lease.Valid() && Validate(group, lease, manifest, now).Some?
    ensures var d := Validate(group, lease, manifest, now).value;
      && d.Valid() && d.groupId == group.groupId && d.status.Rejected? && d.rejectionReason.Some?
      && d.recommendedAction.Reject? && d.budgetReport.None?
      && Exhibits(d.rejectionReason.value, group, lease, manifest, now)
      && forall earlier: RejectionReason :: Rank(earlier) < Rank(d.rejectionReason.value) ==>
           !Exhibits(earlier, group, lease, manifest, now)
  {
    hide FirstTrajectoryViolation, Longest, UsableTrajectory, AllZero;
    TrajectoriesUsable(group.trajectories);
    LongestBounds(|group.promptTokenIds|, group.trajectories, lease.maxContextTokens);
    var reason := FirstViolation(group, lease, manifest, now).value;
    forall earlier: RejectionReason | Rank(earlier) < Rank(reason)
      ensures !Exhibits(earlier, group, lease, manifest, now)
    {
      if reason.ContextOverflow? && (earlier.MissingTokenIds? || earlier.MissingLogprobs?) {
        UsableTokens(group);
      }
    }
  }

  lemma UsableTokens(group: SampleGroup)
    requires forall t :: t in group.trajectories ==> UsableTrajectory(t)
    ensures forall t :: t in group.trajectories ==> t.responseTokenIds != [] && !AllZero(t.rolloutLogprobs)
  {
  }

  // ----- the exact reason

  /** Trajectory `i` is the first that is not usable; it has tokens or has none. */
  ghost predicate UnusableAt(ts: seq<Trajectory>, i: nat, hasTokens: bool) {
    && i < |ts| && !UsableTrajectory(ts[i]) && (hasTokens <==> |ts[i].responseTokenIds| > 0)
    && forall j :: 0 <= j < i ==> UsableTrajectory(ts[j])
  }

  ghost predicate FirstUnusable(ts: seq<Trajectory>, hasTokens: bool) {
    exists i: nat :: UnusableAt(ts, i, hasTokens)
  }

  lemma UsableIff(t: Trajectory)
    ensures TrajectoryViolation(t) == None <==> UsableTrajectory(t)
    ensures TrajectoryViolation(t) == Some(MissingTokenIds) <==> |t.responseTokenIds| == 0
    ensures TrajectoryViolation(t) == Some(MissingLogprobs) <==> !UsableTrajectory(t) && |t.responseTokenIds| > 0
  {
  }

  lemma {:induction false} UnusableLaw(ts: seq<Trajectory>)
    ensures FirstTrajectoryViolation(ts) == None <==> forall i :: 0 <= i < |ts| ==> UsableTrajectory(ts[i])
    ensures FirstTrajectoryViolation(ts) == Some(MissingTokenIds) <==> FirstUnusable(ts, false)
    ensures FirstTrajectoryViolation(ts) == Some(MissingLogprobs) <==> FirstUnusable(ts, true)
    ensures FirstTrajectoryViolation(ts) in {None, Some(MissingTokenIds), Some(MissingLogprobs)}
  {
    hide UsableTrajectory, TrajectoryViolation;
    if ts == [] {
    } else {
      UsableIff(ts[0]);
      UnusableLaw(ts[1..]);
      FirstUnusableShifts(ts, true);
      FirstUnusableShifts(ts, false);
    }
  }

  lemma FirstUnusableShifts(ts: seq<Trajectory>, hasTokens: bool)
    requires ts != []
    ensures FirstUnusable(ts, hasTokens) <==>
      if UsableTrajectory(ts[0]) then FirstUnusable(ts[1..], hasTokens) else hasTokens == (|ts[0].responseTokenIds| > 0)
  {
    hide UsableTrajectory;
    if UsableTrajectory(ts[0]) {
      forall i: nat ensures UnusableAt(ts[1..], i, hasTokens) <==> UnusableAt(ts, i + 1, hasTokens) {
        assert i + 1 < |ts| ==> ts[i + 1] == ts[1..][i];
        assert forall j :: 0 < j < |ts| ==> ts[j] == ts[1..][j - 1];
      }
      if FirstUnusable(ts, hasTokens) {
        var i: nat :| UnusableAt(ts, i, hasTokens);
        assert UnusableAt(ts[1..], i - 1, hasTokens);
      }
    } else if hasTokens == (|ts[0].responseTokenIds| > 0) {
      assert UnusableAt(ts, 0, hasTokens);
    }
  }

  /**
   Which groups are rejected for which reason: each reason exactly where its own test is the first to
   fail, told in the fields of the group, the lease and the manifest.
   */
  lemma {:induction false} VerdictLaw(group: SampleGroup, lease: RolloutLease, manifest: PolicyManifest, now: real)
    ensures var why := FirstViolation(group, lease, manifest, now);
      var live := now < lease.expiresAt;
      var versioned := live && group.policyVersion == lease.policyVersion;
      var current := versioned && group.policyVersion == manifest.policyVersion;
      var trained := current && group.checkpointDigest == manifest.checkpointDigest;
      var tokenized := trained && group.tokenizerHash == manifest.tokenizerHash;
      var precise := tokenized && group.precisionClass == lease.requiredPrecisionClass;
      var quantized := (precise
                        && (lease.requiredQuantizationClass == group.quantizationClass
                            || (lease.requiredQuantizationClass in {None, Some("")}
                                && group.quantizationClass in {None, Some("")})));
      var sized := quantized && |group.trajectories| == lease.groupSize;
      var usable := (sized && |group.promptTokenIds| > 0
                      && forall i :: 0 <= i < |group.trajectories| ==> UsableTrajectory(group.trajectories[i]));
      && (why == Some(ExpiredLease) <==> !live)
      && (why == Some(PolicyVersionMismatch) <==> live && !versioned)
      && (why == Some(MixedPolicyVersion) <==> versioned && !current)
      && (why == Some(CheckpointMismatch) <==> current && !trained)
      && (why == Some(TokenizerMismatch) <==> trained && !tokenized)
      && (why == Some(PrecisionMismatch) <==> tokenized && !precise)
      && (why == Some(QuantizationMismatch) <==> precise && !quantized)
      && (why == Some(GroupSizeMismatch) <==> quantized && !sized)
      && (why == Some(MissingTokenIds) <==>
            sized && (|group.promptTokenIds| == 0 || FirstUnusable(group.trajectories, false)))
      && (why == Some(MissingLogprobs) <==>
            sized && |group.promptTokenIds| > 0 && FirstUnusable(group.trajectories, true))
      && (why != None && why != Some(ContextOverflow) ==> !usable)
  {
    hide FirstTrajectoryViolation, Longest, UsableTrajectory, FirstUnusable;
    UnusableLaw(group.trajectories);
  }

  /** Of the groups with usable trajectories those with an overlong sequence overflow; a rejection says nothing else. */
  lemma {:induction false} OverflowLaw(group: SampleGroup, lease: RolloutLease, manifest: PolicyManifest, now: real)
    requires lease.maxContextTokens > 0
    ensures var why, verdict := FirstViolation(group, lease, manifest, now), Validate(group, lease, manifest, now);
      && (verdict == None <==> why == None)
      && (why.Some? ==> verdict == Some(GroupDecision(group.groupId, Rejected, why, [], None, Reject)))
      && (why in {None, Some(ContextOverflow)} ==>
            (why == None <==>
               forall i :: 0 <= i < |group.trajectories| ==>
                 |group.promptTokenIds| + |group.trajectories[i].responseTokenIds| <= lease.maxContextTokens))
  {
    hide FirstTrajectoryViolation, Longest;
    UnusableLaw(group.trajectories);
    LongestBounds(|group.promptTokenIds|, group.trajectories, lease.maxContextTokens);
  }
}
