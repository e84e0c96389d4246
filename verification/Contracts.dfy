/**
 The records exchanged in the marketplace. `Valid` collects the checks of a record's model
 validator: the original refuses to construct a record that fails them.
 */
module Contracts {
  import opened Wrappers

  datatype GroupStatus = Pending | Accepted | Correctable | Quarantined | Rejected

  datatype RejectionReason =
    | MixedPolicyVersion
    | PolicyVersionMismatch
    | CheckpointMismatch
    | TokenizerMismatch
    | PrecisionMismatch
    | QuantizationMismatch
    | MissingTokenIds
    | MissingLogprobs
    | GroupSizeMismatch
    | IdempotencyKeyMismatch
    | ExpiredLease
    | ContextOverflow

  datatype DecisionReason =
    | WithinBudget
    | HighClippedFraction
    | LowEss
    | ReplayTierLag
    | ReplayTierEss
    | StalePolicyLag
    | VetoThresholdExceeded
    | HighRouterFlipRate

  datatype Action = Train | TrainWithCorrection | Replay | Quarantine | Reject

  datatype PolicyManifest = PolicyManifest(
    policyVersion: string,
    checkpointDigest: string,
    tokenizerHash: string)

  datatype WorkerManifest = WorkerManifest(
    workerId: string,
    engineName: string,
    precisionClasses: seq<string>,
    quantizationClasses: seq<string>,
    maxContextTokens: int)

  datatype WorkerHeartbeat = WorkerHeartbeat(workerId: string, lastSeenAt: real)

  datatype RolloutJob = RolloutJob(
    jobId: string,
    promptTokenIds: seq<int>,
    policyVersion: string,
    groupSize: int,
    requiredPrecisionClass: string,
    requiredQuantizationClass: Option<string>,
    allowedEngines: seq<string>,
    maxContextTokens: int,
    idempotencyKey: string)
  {
    predicate Valid() {
      groupSize >= 1 && maxContextTokens > 0 && promptTokenIds != []
    }
  }

  datatype RolloutLease = RolloutLease(
    leaseId: string,
    jobId: string,
    assignmentId: string,
    workerId: string,
    policyVersion: string,
    requiredPrecisionClass: string,
    requiredQuantizationClass: Option<string>,
    maxContextTokens: int,
    groupSize: int,
    idempotencyKey: string,
    issuedAt: real,
    expiresAt: real)
  {
    predicate Valid() {
      groupSize >= 1 && maxContextTokens > 0 && expiresAt > issuedAt
    }

    predicate IsExpired(now: real) {
      now >= expiresAt
    }
  }

  datatype Trajectory = Trajectory(
    responseTokenIds: seq<int>,
    rolloutLogprobs: seq<real>,
    actionMask: seq<int>,
    toolOutputMask: seq<int>)
  {
    predicate Valid() {
      |rolloutLogprobs| == |actionMask| == |toolOutputMask| == |responseTokenIds|
    }
  }

  datatype SampleGroup = SampleGroup(
    groupId: string,
    promptId: string,
    workerId: string,
    assignmentId: string,
    policyVersion: string,
    checkpointDigest: string,
    tokenizerHash: string,
    precisionClass: string,
    quantizationClass: Option<string>,
    promptTokenIds: seq<int>,
    trajectories: seq<Trajectory>,
    policyLagSteps: int)
  {
    predicate Valid() {
      && trajectories != [] && policyLagSteps >= 0
      && forall i :: 0 <= i < |trajectories| ==> trajectories[i].Valid()
    }
  }

  /** `variance` is the square of the source's `std_weight`; real numbers have no square root here. */
  datatype BudgetReport = BudgetReport(
    groupId: string,
    meanWeight: real,
    variance: real,
    secondMoment: real,
    effectiveSampleSize: real,
    clippedFraction: real,
    vetoFraction: real,
    maxAbsLogRatio: real,
    policyLagSteps: int,
    routerFlipRate: Option<real>,
    notes: seq<string>)

  datatype GroupDecision = GroupDecision(
    groupId: string,
    status: GroupStatus,
    rejectionReason: Option<RejectionReason>,
    decisionReasons: seq<DecisionReason>,
    budgetReport: Option<BudgetReport>,
    recommendedAction: Action)
  {
    predicate Valid() {
      && (status.Rejected? <==> rejectionReason.Some?)
      && (status.Rejected? ==> decisionReasons == [])
    }
  }
}
