/** What the threads report: every decision is the one its worker's profile calls for. */
module SimulationOutcomes {
  import opened Wrappers
  import opened Dicts
  import opened Contracts
  import opened Opbc
  import opened WorkerBroker
  import opened BrokerInvariants
  import opened Marketplace
  import opened WorkerLoop
  import opened Simulation
  import opened WorkerThreads
  import opened SimulationRuns
  import opened Profiles
  import LiveStore

  /** A job of the simulation: pinned to the manifest's version, with room for the fixed prompt and response. */
  ghost predicate SimJob(job: RolloutJob, manifest: PolicyManifest) {
    && job.policyVersion == manifest.policyVersion && job.policyVersion != "v9999"
    && manifest.checkpointDigest == "sha256:sim-ckpt" && manifest.tokenizerHash == "tok-honest"
    && job.requiredPrecisionClass != "fp16" && job.requiredQuantizationClass in {None, Some("")}
    && job.maxContextTokens >= 7
  }

  ghost predicate SimJobs(queue: Dict<string, RolloutJob>, manifest: PolicyManifest) {
    forall j :: j in queue.at ==> SimJob(queue.at[j], manifest)
  }

  ghost predicate AsExpected(d: GroupDecision, profile: Profile) {
    (d.status, d.recommendedAction, d.decisionReasons, d.rejectionReason) == Expected(profile)
  }

  ghost predicate Foretold(w: World, c: Crew) {
    && |c.profiles| == |w.phases|
    && (forall k :: 0 <= k < |w.out| ==> w.out[k].0 < |c.profiles| && AsExpected(w.out[k].1, c.profiles[w.out[k].0]))
    && (forall i :: 0 <= i < |w.phases| && w.phases[i].Reporting? ==> AsExpected(w.phases[i].decision, c.profiles[i]))
    && (forall i :: 0 <= i < |w.phases| && w.phases[i].Holding? ==> SimLease(w.phases[i].lease, c.setting.manifest))
  }

  /** A held group is judged before its lease expires, and the random draws are within their range. */
  ghost predicate InTime(w: World, t: Turn) {
    t.worker < |w.phases| && w.phases[t.worker].Holding? ==>
      !w.phases[t.worker].lease.IsExpired(t.judgedAt) && SmallNoise(t.noise)
  }

  ghost predicate DefaultSetting(s: Setting) {
    s.policy == DEFAULT_POLICY && Fit(s) && AboveTangent(s.exp)
  }

  lemma {:induction false} MoveForetold(w: World, c: Crew, m: Market, i: nat, p: Phase, out: seq<(nat, GroupDecision)>)
    requires Foretold(w, c) && i < |w.phases|
    requires p.Reporting? ==> AsExpected(p.decision, c.profiles[i])
    requires p.Holding? ==> SimLease(p.lease, c.setting.manifest)
    requires out == w.out || (w.phases[i].Reporting? && out == w.out + [(i, w.phases[i].decision)])
    ensures Foretold(World(m, w.phases[i := p], out), c)
  {
  }

  lemma {:induction false} FetchForetold(w: World, c: Crew, t: Turn)
    requires SimInv(w, c) && Foretold(w, c) && Playable(w, t) && w.phases[t.worker].Ready? && |c.ids| == |w.phases|
    requires SimJobs(w.market.broker.jobs, c.setting.manifest) && Fetch(w, c, t).Running?
    ensures Foretold(Fetch(w, c, t).world, c)
  {
    hide SimInv, Foretold, Inv, WellFormed, CrewReady, JobsReady, WorkerBroker.AcquireLease, AsExpected, SimLease,
      SimJob;
    SimParts(w, c);
    var b := w.market.broker;
    FetchCases(b, c.ids, t.worker, t.leaseId, t.assignmentId, t.now);
    var r := WorkerBroker.AcquireLease(b, c.ids[t.worker], t.leaseId, t.assignmentId, t.now).value;
    if r.1.Some? {
      FetchedSimLease(b, c.ids[t.worker], t, c.setting.manifest);
      MoveForetold(w, c, Market(r.0, w.market.store), t.worker, Holding(r.1.value), w.out);
    } else {
      MoveForetold(w, c, Market(r.0, w.market.store), t.worker, Finished, w.out);
    }
  }

  lemma {:induction false} FetchedSimLease(b: Broker, workerId: string, t: Turn, manifest: PolicyManifest)
    requires SimJobs(b.jobs, manifest)
    requires WorkerBroker.AcquireLease(b, workerId, t.leaseId, t.assignmentId, t.now).Ok?
    requires WorkerBroker.AcquireLease(b, workerId, t.leaseId, t.assignmentId, t.now).value.1.Some?
    ensures SimLease(WorkerBroker.AcquireLease(b, workerId, t.leaseId, t.assignmentId, t.now).value.1.value, manifest)
  {
    hide NextJob, CapabilitiesMatch, IssueLease;
    NextJobIsFirstEligible(b, b.jobs.keys, b.workers.at[workerId]);
  }

  lemma {:induction false} HandInForetold(w: World, c: Crew, t: Turn)
    requires Foretold(w, c) && Playable(w, t) && InTime(w, t) && w.phases[t.worker].Holding? && |c.ids| == |w.phases|
    requires w.phases[t.worker].lease.Valid() && DefaultSetting(c.setting)
    requires HandIn(w, c, t, w.phases[t.worker].lease).Running?
    ensures Foretold(HandIn(w, c, t, w.phases[t.worker].lease).world, c)
  {
    hide Fit, AboveTangent, Simulation.Verdict, MakeGroup, WorkerBroker.SubmitGroup, SmallNoise, Expected, SimLease;
    var lease := w.phases[t.worker].lease;
    ProfilesAreToldApart(lease, c.profiles[t.worker], t.noise, t.judgedAt, c.setting);
    var decision := Simulation.Verdict(lease, c.profiles[t.worker], t.noise, t.judgedAt, c.setting).value;
    assert AsExpected(decision, c.profiles[t.worker]);
    hide Foretold, AsExpected;
    var v := HandIn(w, c, t, lease).world;
    MoveForetold(w, c, v.market, t.worker, Reporting(decision), w.out);
  }

  lemma {:induction false} TurnForetold(w: World, c: Crew, t: Turn)
    requires SimInv(w, c) && Foretold(w, c) && Playable(w, t) && InTime(w, t)
    requires SimJobs(w.market.broker.jobs, c.setting.manifest) && DefaultSetting(c.setting)
    ensures GoodTurn(w, c, TakeTurn(w, c, t)) && Foretold(TakeTurn(w, c, t).world, c)
  {
    hide SimInv, Fit, AboveTangent, Fetch, HandIn, InTime, AsExpected, SimLease, SimJobs, Measure;
    TurnKeeps(w, c, t);
    var i := t.worker;
    match w.phases[i]
    case Arriving => MoveForetold(w, c, w.market, i, AtBarrier, w.out);
    case AtBarrier => MoveForetold(w, c, w.market, i, Ready, w.out);
    case Ready => FetchForetold(w, c, t);
    case Holding(lease) => HandInForetold(w, c, t);
    case Reporting(decision) => MoveForetold(w, c, w.market, i, Ready, w.out + [(i, decision)]);
  }

  ghost predicate AllInTime(w: World, c: Crew, turns: seq<Turn>)
    requires |c.ids| == |c.profiles| == |w.phases| && Fit(c.setting)
    decreases turns
  {
    turns != [] && Playable(w, turns[0]) && LeasesHeldValid(w) ==>
      && InTime(w, turns[0])
      && (TurnKeepsThreads(w, c, turns[0]);
          var r := TakeTurn(w, c, turns[0]);
          r.Running? ==> AllInTime(r.world, c, turns[1..]))
  }

  lemma {:induction false} ScheduleForetold(w: World, c: Crew, turns: seq<Turn>)
    requires SimInv(w, c) && Foretold(w, c)
    requires SimJobs(w.market.broker.jobs, c.setting.manifest) && DefaultSetting(c.setting)
    requires |c.ids| == |c.profiles| == |w.phases| && AllInTime(w, c, turns) && Play(w, c, turns).Running?
    ensures Foretold(Play(w, c, turns).world, c)
    decreases turns
  {
    hide SimInv, TakeTurn, Playable, Measure, LeasesHeldValid, Fit, AboveTangent, Foretold, InTime, SimJobs;
    if turns == [] {
    } else {
      HeldAreValid(w, c);
      TurnForetold(w, c, turns[0]);
      var v := TakeTurn(w, c, turns[0]).world;
      HeldAreValid(v, c);
      ScheduleForetold(v, c, turns[1..]);
    }
  }

  // ----- from the start

  lemma {:induction false} StartForetold(manifests: seq<WorkerManifest>, profiles: seq<Profile>, jobs: seq<RolloutJob>,
                                         s: Setting, leaseTtl: real, heartbeatTtl: real, now: real)
    requires FitForEachOther(manifests, jobs) && |profiles| == |manifests| && leaseTtl > 0.0
    requires forall j :: j in jobs ==> SimJob(j, s.manifest)
    ensures var w := Start(manifests, jobs, leaseTtl, heartbeatTtl, now);
      && Foretold(w, CrewOf(manifests, profiles, s)) && SimJobs(w.market.broker.jobs, s.manifest)
      && w.market.broker.leaseTtl == leaseTtl
  {
    hide Inv, CrewReady, FitForEachOther, Enlist, Enqueue, SimJob;
    StartBroker(manifests, jobs, leaseTtl, heartbeatTtl, now);
  }

  /**
   Along every schedule of the simulation that judges groups before their leases expire, each
   reported decision is the one expected of its worker's profile.
   */
  lemma {:induction false} ReportsAreAsExpected(manifests: seq<WorkerManifest>, profiles: seq<Profile>,
                                                jobs: seq<RolloutJob>, s: Setting, leaseTtl: real, heartbeatTtl: real,
                                                now: real, turns: seq<Turn>)
    requires FitForEachOther(manifests, jobs) && |profiles| == |manifests| && leaseTtl > 0.0 && DefaultSetting(s)
    requires forall j :: j in jobs ==> SimJob(j, s.manifest)
    ensures var w, c := Start(manifests, jobs, leaseTtl, heartbeatTtl, now), CrewOf(manifests, profiles, s);
      && |c.ids| == |c.profiles| == |w.phases|
      && (AllInTime(w, c, turns) && Play(w, c, turns).Running? ==>
            var out := Play(w, c, turns).world.out;
            forall k :: 0 <= k < |out| ==> out[k].0 < |profiles| && AsExpected(out[k].1, profiles[out[k].0]))
  {
    hide SimInv, Measure, Fit, AboveTangent, Start, FitForEachOther, AsExpected, SimJob, SimJobs, AllInTime, Play;
    var w, c := Start(manifests, jobs, leaseTtl, heartbeatTtl, now), CrewOf(manifests, profiles, s);
    StartInv(manifests, profiles, jobs, s, leaseTtl, heartbeatTtl, now);
    StartForetold(manifests, profiles, jobs, s, leaseTtl, heartbeatTtl, now);
    CrewSize(w, c);
    if AllInTime(w, c, turns) && Play(w, c, turns).Running? {
      ScheduleForetold(w, c, turns);
    }
  }

  // ----- a run that is over before the first lease can expire

  /** All clock readings are at `from` or later, all judging readings before `from + ttl`, all draws in range. */
  ghost predicate Swift(turns: seq<Turn>, from: real, ttl: real) {
    forall k :: 0 <= k < |turns| ==>
      from <= turns[k].now && turns[k].judgedAt < from + ttl && SmallNoise(turns[k].noise)
  }

  ghost predicate HeldUntil(phases: seq<Phase>, deadline: real) {
    forall i :: 0 <= i < |phases| && phases[i].Holding? ==> deadline <= phases[i].lease.expiresAt
  }

  lemma {:induction false} TurnHeldUntil(w: World, c: Crew, t: Turn, from: real)
    requires Playable(w, t) && |c.ids| == |c.profiles| == |w.phases| && LeasesHeldValid(w) && Fit(c.setting)
    requires HeldUntil(w.phases, from + w.market.broker.leaseTtl) && from <= t.now && TakeTurn(w, c, t).Running?
    ensures var v := TakeTurn(w, c, t).world;
      v.market.broker.leaseTtl == w.market.broker.leaseTtl && HeldUntil(v.phases, from + v.market.broker.leaseTtl)
  {
    hide Fit, NextJob, Simulation.Verdict, MakeGroup, LiveStore.Submit;
  }

  lemma {:induction false} SwiftIsInTime(w: World, c: Crew, turns: seq<Turn>, from: real)
    requires SimInv(w, c) && |c.ids| == |c.profiles| == |w.phases| && Fit(c.setting)
    requires HeldUntil(w.phases, from + w.market.broker.leaseTtl) && Swift(turns, from, w.market.broker.leaseTtl)
    ensures AllInTime(w, c, turns)
    decreases turns
  {
    hide SimInv, TakeTurn, Playable, Measure, LeasesHeldValid, Fit, SmallNoise;
    if turns != [] && Playable(w, turns[0]) {
      HeldAreValid(w, c);
      TurnKeeps(w, c, turns[0]);
      TurnHeldUntil(w, c, turns[0], from);
      var v := TakeTurn(w, c, turns[0]).world;
      HeldAreValid(v, c);
      assert forall k :: 0 <= k < |turns[1..]| ==> turns[1..][k] == turns[k + 1];
      SwiftIsInTime(v, c, turns[1..], from);
    } else {
    }
  }

  /** A swift schedule of the simulation only has results as expected, whatever its order. */
  lemma {:induction false} SwiftReports(manifests: seq<WorkerManifest>, profiles: seq<Profile>, jobs: seq<RolloutJob>,
                                        s: Setting, leaseTtl: real, heartbeatTtl: real, now: real, turns: seq<Turn>,
                                        from: real)
    requires FitForEachOther(manifests, jobs) && |profiles| == |manifests| && leaseTtl > 0.0 && DefaultSetting(s)
    requires forall j :: j in jobs ==> SimJob(j, s.manifest)
    requires Swift(turns, from, leaseTtl)
    ensures var w, c := Start(manifests, jobs, leaseTtl, heartbeatTtl, now), CrewOf(manifests, profiles, s);
      && |c.ids| == |c.profiles| == |w.phases|
      && (Play(w, c, turns).Running? ==>
            var out := Play(w, c, turns).world.out;
            forall k :: 0 <= k < |out| ==> out[k].0 < |profiles| && AsExpected(out[k].1, profiles[out[k].0]))
  {
    hide SimInv, Measure, Fit, AboveTangent, FitForEachOther, AsExpected, SimJob, SimJobs, AllInTime, Play, Foretold,
      Swift, Enlist, Enqueue;
    var w, c := Start(manifests, jobs, leaseTtl, heartbeatTtl, now), CrewOf(manifests, profiles, s);
    StartInv(manifests, profiles, jobs, s, leaseTtl, heartbeatTtl, now);
    StartForetold(manifests, profiles, jobs, s, leaseTtl, heartbeatTtl, now);
    CrewSize(w, c);
    SwiftIsInTime(w, c, turns, from);
    ReportsAreAsExpected(manifests, profiles, jobs, s, leaseTtl, heartbeatTtl, now, turns);
  }
}
