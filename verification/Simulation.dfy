/**
 The marketplace simulation: one thread per synthetic worker runs fetch, judge, submit, report
 until the queue is empty. A turn is one atomic step of one thread; a schedule is any sequence of turns.
 */
module Simulation {
  import opened Wrappers
  import opened Dicts
  import opened Contracts
  import opened Opbc
  import opened WorkerBroker
  import opened BrokerInvariants
  import opened Marketplace
  import opened WorkerLoop
  import LiveStore

  datatype Profile = Honest | Noisy | Stale | ToxicTokenizer | ToxicPrecision | ToxicNoLogprobs | ToxicVersionDrift

  // ----- the group a worker produces and the trainer's view of it

  const BASE: seq<real> := [-0.4, -0.3, -0.5]
  const BASELINE: seq<real> := [-0.395, -0.305, -0.495]

  /** `noise` holds the three draws from [-0.02, 0.02]. */
  function RolloutLogprobs(profile: Profile, noise: seq<real>): (r: seq<real>)
    requires |noise| == 3
    ensures |r| == 3
  {
    match profile
    case Noisy => [-0.4, -0.3, -25.0]
    case Stale => BASE
    case ToxicNoLogprobs => [0.0, 0.0, 0.0]
    case _ => [BASE[0] + noise[0], BASE[1] + noise[1], BASE[2] + noise[2]]
  }

  function MakeTrajectory(profile: Profile, noise: seq<real>): Trajectory
    requires |noise| == 3
  {
    Trajectory([10, 11, 12], RolloutLogprobs(profile, noise), [1, 1, 1], [0, 0, 0])
  }

  function MakeGroup(lease: RolloutLease, profile: Profile, noise: seq<real>): (g: SampleGroup)
    requires lease.Valid() && |noise| == 3
    ensures g.Valid()
  {
    SampleGroup(
      "g-" + lease.leaseId, lease.jobId, lease.workerId, lease.assignmentId,
      if profile.ToxicVersionDrift? then "v9999" else lease.policyVersion,
      "sha256:sim-ckpt",
      if profile.ToxicTokenizer? then "tok-INVALID" else "tok-honest",
      if profile.ToxicPrecision? then "fp16" else lease.requiredPrecisionClass,
      None,
      [101, 202, 303, 404],
      seq(lease.groupSize, _ => MakeTrajectory(profile, noise)),
      if profile.Stale? then 12 else 1)
  }

  /** The baseline value of each policy token, counted from zero within the trajectory. */
  function TrainFor(action: seq<int>, tool: seq<int>): seq<real>
    requires |action| == |tool|
  {
    if action == [] then []
    else
      var n := |action| - 1;
      var before := TrainFor(action[..n], tool[..n]);
      before + if action[n] != 0 && tool[n] == 0 then [BASELINE[|before| % 3]] else []
  }

  function TrainStream(ts: seq<Trajectory>): seq<real>
    requires forall i :: 0 <= i < |ts| ==> ts[i].Valid()
  {
    if ts == [] then []
    else
      assert ts[|ts| - 1].Valid();
      TrainStream(ts[..|ts| - 1]) + TrainFor(ts[|ts| - 1].actionMask, ts[|ts| - 1].toolOutputMask)
  }

  method TrainLogprobsFor(group: SampleGroup) returns (train: seq<real>)
    requires group.Valid()
    ensures train == TrainStream(group.trajectories)
  {
    train := [];
    for i := 0 to |group.trajectories|
      invariant train == TrainStream(group.trajectories[..i])
    {
      var t := group.trajectories[i];
      ghost var before := train;
      var idx := 0;
      for k := 0 to |t.actionMask|
        invariant train == before + TrainFor(t.actionMask[..k], t.toolOutputMask[..k])
        invariant idx == |TrainFor(t.actionMask[..k], t.toolOutputMask[..k])|
      {
        assert t.actionMask[..k + 1][..k] == t.actionMask[..k];
        assert t.toolOutputMask[..k + 1][..k] == t.toolOutputMask[..k];
        if t.actionMask[k] != 0 && t.toolOutputMask[k] == 0 {
          train := train + [BASELINE[idx % |BASELINE|]];
          idx := idx + 1;
        }
      }
      assert t.actionMask[..|t.actionMask|] == t.actionMask;
      assert t.toolOutputMask[..|t.actionMask|] == t.toolOutputMask;
      assert group.trajectories[..i + 1][..i] == group.trajectories[..i];
    }
    assert group.trajectories[..|group.trajectories|] == group.trajectories;
  }

  lemma {:induction false} TrainMatchesSelection(logprobs: seq<real>, action: seq<int>, tool: seq<int>)
    requires |logprobs| == |action| == |tool|
    ensures |Selected(logprobs, action, tool)| == |TrainFor(action, tool)|
  {
    if action == [] {
    } else {
      var n := |action| - 1;
      TrainMatchesSelection(logprobs[..n], action[..n], tool[..n]);
    }
  }

  lemma {:induction false} TrainMatchesTokens(ts: seq<Trajectory>)
    requires forall i :: 0 <= i < |ts| ==> ts[i].Valid()
    ensures |Flatten(ts)| == |TrainStream(ts)|
  {
    hide Selected, TrainFor;
    if ts == [] {
    } else {
      var t := ts[|ts| - 1];
      assert t.Valid();
      TrainMatchesTokens(ts[..|ts| - 1]);
      TrainMatchesSelection(t.rolloutLogprobs, t.actionMask, t.toolOutputMask);
    }
  }

  lemma {:induction false} MadeGroupHasTokens(lease: RolloutLease, profile: Profile, noise: seq<real>)
    requires lease.Valid() && |noise| == 3
    ensures Flatten(MakeGroup(lease, profile, noise).trajectories) != []
  {
    var ts := MakeGroup(lease, profile, noise).trajectories;
    var t := ts[|ts| - 1];
    assert t == MakeTrajectory(profile, noise);
    assert Selected(t.rolloutLogprobs, t.actionMask, t.toolOutputMask) != [] by {
      assert t.actionMask[2] != 0 && t.toolOutputMask[2] == 0;
    }
  }

  /** The trainer's log-probabilities of a group, as the simulation derives them from its masks. */
  function Baseline(group: SampleGroup): seq<real> {
    if group.Valid() then TrainStream(group.trajectories) else []
  }

  /** A setting of the simulation: its trainer measures every group against the baseline. */
  ghost predicate Fit(s: Setting) {
    IsExp(s.exp) && forall g: SampleGroup :: s.trainOf(g) == Baseline(g)
  }

  /** What the thread computes between fetching a lease and submitting: never an exception. */
  function Verdict(lease: RolloutLease, profile: Profile, noise: seq<real>, now: real, s: Setting)
    : Result<GroupDecision>
    requires lease.Valid() && |noise| == 3 && Fit(s)
  {
    Judge(MakeGroup(lease, profile, noise), lease, now, s)
  }

  lemma {:induction false} VerdictSucceeds(lease: RolloutLease, profile: Profile, noise: seq<real>, now: real,
                                           s: Setting)
    requires lease.Valid() && |noise| == 3 && Fit(s)
    ensures Verdict(lease, profile, noise, now, s).Ok?
    ensures Verdict(lease, profile, noise, now, s).value.groupId == "g-" + lease.leaseId
  {
    hide IsExp, Flatten, TrainStream, Metrics;
    var group := MakeGroup(lease, profile, noise);
    assert s.trainOf(group) == TrainStream(group.trajectories);
    TrainMatchesTokens(group.trajectories);
    MadeGroupHasTokens(lease, profile, noise);
    EchoedId(group, s.trainOf(group), s);
  }

  lemma {:induction false} EchoedId(group: SampleGroup, train: seq<real>, s: Setting)
    requires group.Valid() && IsExp(s.exp) && Report(group, train, s.policy, None, s.exp).Ok?
    ensures Decision(Report(group, train, s.policy, None, s.exp).value, s.policy).groupId == group.groupId
  {
    hide IsExp, Flatten;
  }
}
