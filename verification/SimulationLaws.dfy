/** The simulation told in its own numbers: groups and baselines, the start, one turn, and the final counters. */
module SimulationLaws {
  import opened Wrappers
  import opened Dicts
  import opened Contracts
  import opened Opbc
  import opened WorkerBroker
  import opened Marketplace
  import opened WorkerLoop
  import opened Simulation
  import opened SimulationCounters
  import opened WorkerThreads
  import opened SimulationRuns
  import BudgetLaws
  import LiveStore
  import Validators

  // ----- the group of a profile

  /** The log-probabilities a profile samples: three base values with noise, or its own spoilt ones. */
  ghost predicate SampledBy(r: seq<real>, profile: Profile, noise: seq<real>)
    requires |noise| == 3
  {
    && |r| == 3
    && (profile == Noisy ==> r[0] == -0.4 && r[1] == -0.3 && r[2] == -25.0)
    && (profile == Stale ==> r[0] == -0.4 && r[1] == -0.3 && r[2] == -0.5)
    && (profile == ToxicNoLogprobs ==> r[0] == r[1] == r[2] == 0.0)
    && (profile !in {Noisy, Stale, ToxicNoLogprobs} ==>
          r[0] == noise[0] - 0.4 && r[1] == noise[1] - 0.3 && r[2] == noise[2] - 0.5)
  }

  /** The group: honest in everything but the one thing its profile spoils. */
  ghost predicate IsMade(g: SampleGroup, lease: RolloutLease, profile: Profile, noise: seq<real>)
    requires |noise| == 3
  {
    && g.groupId == "g-" + lease.leaseId && g.promptId == lease.jobId && g.workerId == lease.workerId
    && g.assignmentId == lease.assignmentId && g.checkpointDigest == "sha256:sim-ckpt" && g.quantizationClass == None
    && g.policyVersion == (if profile == ToxicVersionDrift then "v9999" else lease.policyVersion)
    && g.tokenizerHash == (if profile == ToxicTokenizer then "tok-INVALID" else "tok-honest")
    && g.precisionClass == (if profile == ToxicPrecision then "fp16" else lease.requiredPrecisionClass)
    && g.promptTokenIds == [101, 202, 303, 404] && g.policyLagSteps == (if profile == Stale then 12 else 1)
    && |g.trajectories| == lease.groupSize
    && forall i :: 0 <= i < |g.trajectories| ==>
         var t := g.trajectories[i];
         && t.responseTokenIds == [10, 11, 12] && t.actionMask == [1, 1, 1] && t.toolOutputMask == [0, 0, 0]
         && SampledBy(t.rolloutLogprobs, profile, noise)
  }

  lemma MadeLaw(lease: RolloutLease, profile: Profile, noise: seq<real>)
    requires lease.Valid() && |noise| == 3
    ensures IsMade(MakeGroup(lease, profile, noise), lease, profile, noise)
  {
    hide RolloutLogprobs, SampledBy;
    SampledLaw(profile, noise);
  }

  lemma SampledLaw(profile: Profile, noise: seq<real>)
    requires |noise| == 3
    ensures SampledBy(RolloutLogprobs(profile, noise), profile, noise)
  {
  }

  // ----- the baseline

  lemma {:induction false} TrainForLaw(action: seq<int>, tool: seq<int>)
    requires |action| == |tool|
    ensures |TrainFor(action, tool)| == |BudgetLaws.ActionPositions(action, tool)|
    ensures forall k :: 0 <= k < |TrainFor(action, tool)| ==>
      TrainFor(action, tool)[k] == [-0.395, -0.305, -0.495][k % 3]
  {
    if action == [] {
    } else {
      TrainForLaw(action[..|action| - 1], tool[..|action| - 1]);
    }
  }

  /** The baseline runs through its three values over the scored tokens and starts anew in each trajectory. */
  lemma {:induction false} BaselineLaw(ts: seq<Trajectory>, t: Trajectory)
    requires t.Valid() && forall i :: 0 <= i < |ts| ==> ts[i].Valid()
    ensures TrainStream([]) == []
    ensures var before, all := TrainStream(ts), TrainStream(ts + [t]);
      && |all| == |before| + |BudgetLaws.ActionPositions(t.actionMask, t.toolOutputMask)| && before <= all
      && forall k :: |before| <= k < |all| ==> all[k] == [-0.395, -0.305, -0.495][(k - |before|) % 3]
  {
    hide TrainFor;
    TrainForLaw(t.actionMask, t.toolOutputMask);
    assert (ts + [t])[..|ts|] == ts && (ts + [t])[|ts|] == t;
  }

  // ----- the start

  /** Every worker is registered in order and was last seen now. */
  ghost predicate Enlisted(b: Broker, manifests: seq<WorkerManifest>, now: real) {
    && |b.workers.keys| == |manifests|
    && forall i :: 0 <= i < |manifests| ==>
         var id := manifests[i].workerId;
         && b.workers.keys[i] == id && id in b.workers.at && b.workers.at[id] == manifests[i]
         && id in b.heartbeats && b.heartbeats[id] == WorkerHeartbeat(id, now)
  }

  lemma JoinLaw(b: Broker, manifest: WorkerManifest, now: real)
    requires b.workers.Valid() && b.deadWorkers == {} && manifest.workerId !in b.workers.keys
    ensures var r, id := Join(b, manifest, now), manifest.workerId;
      && r.workers.Valid() && r.deadWorkers == {} && r.workers.keys == b.workers.keys + [id]
      && r.workers.at == b.workers.at[id := manifest]
      && r.heartbeats == b.heartbeats[id := WorkerHeartbeat(id, now)]
      && r == b.(workers := r.workers, heartbeats := r.heartbeats, audit := r.audit)
  {
  }

  lemma JoinedOne(b: Broker, r: Broker, manifests: seq<WorkerManifest>, now: real)
    requires manifests != [] && Enlisted(b, manifests[..|manifests| - 1], now)
    requires forall i :: 0 <= i < |manifests| - 1 ==> manifests[i].workerId != manifests[|manifests| - 1].workerId
    requires var manifest := manifests[|manifests| - 1]; var id := manifest.workerId;
      && r.workers.keys == b.workers.keys + [id] && r.workers.at == b.workers.at[id := manifest]
      && r.heartbeats == b.heartbeats[id := WorkerHeartbeat(id, now)]
    ensures Enlisted(r, manifests, now)
  {
    assert forall i :: 0 <= i < |manifests| - 1 ==> manifests[..|manifests| - 1][i] == manifests[i];
  }

  lemma {:induction false} EnlistLaw(b: Broker, manifests: seq<WorkerManifest>, now: real)
    requires b.workers == EmptyDict() && b.deadWorkers == {}
    requires forall i, k :: 0 <= i < k < |manifests| ==> manifests[i].workerId != manifests[k].workerId
    ensures var r := Enlist(b, manifests, now);
      && Enlisted(r, manifests, now) && r.workers.Valid() && r.deadWorkers == {}
      && r == b.(workers := r.workers, heartbeats := r.heartbeats, audit := r.audit)
  {
    hide Join;
    if manifests == [] {
    } else {
      var n := |manifests| - 1;
      var before := Enlist(b, manifests[..n], now);
      EnlistLaw(b, manifests[..n], now);
      NotYetEnlisted(before, manifests, now);
      JoinLaw(before, manifests[n], now);
      JoinedOne(before, Join(before, manifests[n], now), manifests, now);
    }
  }

  lemma NotYetEnlisted(b: Broker, manifests: seq<WorkerManifest>, now: real)
    requires manifests != [] && Enlisted(b, manifests[..|manifests| - 1], now)
    requires forall i :: 0 <= i < |manifests| - 1 ==> manifests[i].workerId != manifests[|manifests| - 1].workerId
    ensures manifests[|manifests| - 1].workerId !in b.workers.keys
  {
  }

  /** The jobs stand in the queue in the order in which they were submitted. */
  ghost predicate InLine(keys: seq<string>, jobs: seq<RolloutJob>) {
    |keys| == |jobs| && forall i :: 0 <= i < |jobs| ==> keys[i] == jobs[i].jobId
  }

  lemma QueuedLast(keys: seq<string>, jobs: seq<RolloutJob>)
    requires jobs != [] && InLine(keys, jobs[..|jobs| - 1])
    requires forall i :: 0 <= i < |jobs| - 1 ==> jobs[i].jobId != jobs[|jobs| - 1].jobId
    ensures jobs[|jobs| - 1].jobId !in keys && InLine(keys + [jobs[|jobs| - 1].jobId], jobs)
  {
  }

  lemma SubmitLaw(b: Broker, job: RolloutJob, now: real)
    requires b.jobs.Valid()
    ensures var r := WorkerBroker.SubmitJob(b, job, now);
      && r.jobs.Valid() && r == b.(jobs := r.jobs, audit := r.audit)
      && (job.jobId !in b.jobs.keys ==> r.jobs.keys == b.jobs.keys + [job.jobId])
  {
  }

  lemma {:induction false} EnqueueLaw(b: Broker, jobs: seq<RolloutJob>, now: real)
    requires b.jobs == EmptyDict()
    requires forall i, k :: 0 <= i < k < |jobs| ==> jobs[i].jobId != jobs[k].jobId
    ensures var r := Enqueue(b, jobs, now);
      r.jobs.Valid() && InLine(r.jobs.keys, jobs) && r == b.(jobs := r.jobs, audit := r.audit)
  {
    hide WorkerBroker.SubmitJob, Dict.Valid, InLine;
    if jobs == [] {
      NobodyInLine();
    } else {
      var n := |jobs| - 1;
      EnqueueLaw(b, jobs[..n], now);
      var before := Enqueue(b, jobs[..n], now);
      QueuedLast(before.jobs.keys, jobs);
      SubmitLaw(before, jobs[n], now);
    }
  }

  lemma NobodyInLine()
    ensures InLine([], []) && EmptyDict<string, RolloutJob>().Valid()
  {
  }

  /** The start: all workers registered and seen just now, the jobs queued in order, nothing leased, stored or done. */
  lemma {:induction false} StartLaw(manifests: seq<WorkerManifest>, jobs: seq<RolloutJob>, leaseTtl: real,
                                    heartbeatTtl: real, now: real)
    requires FitForEachOther(manifests, jobs) && leaseTtl > 0.0
    ensures var w := Start(manifests, jobs, leaseTtl, heartbeatTtl, now); var b := w.market.broker;
      && Enlisted(b, manifests, now) && b.deadWorkers == {} && InLine(b.jobs.keys, jobs) && Queued(b.jobs, jobs)
      && b.leaseTtl == leaseTtl && b.heartbeatTtl == heartbeatTtl
      && b.leases.keys == [] && b.leasedJobIds == {} && b.idempotencyKeys == map[] && b.failures == []
      && w.market.store.keys == [] && w.out == [] && |w.phases| == |manifests|
      && forall i :: 0 <= i < |manifests| ==> w.phases[i] == Arriving
  {
    hide Enlist, Enqueue, Enlisted, Queued, InLine, CapabilitiesMatch, RolloutJob.Valid;
    var e := EmptyBroker(leaseTtl, heartbeatTtl);
    var enlisted := Enlist(e, manifests, now);
    EnlistLaw(e, manifests, now);
    assert enlisted.jobs == EmptyDict();
    EnqueueLaw(enlisted, jobs, now);
    StartBroker(manifests, jobs, leaseTtl, heartbeatTtl, now);
    SameWorkers(enlisted, Enqueue(enlisted, jobs, now), manifests, now);
  }

  lemma SameWorkers(b: Broker, r: Broker, manifests: seq<WorkerManifest>, now: real)
    requires Enlisted(b, manifests, now) && r.workers == b.workers && r.heartbeats == b.heartbeats
    ensures Enlisted(r, manifests, now)
  {
  }

  // ----- one turn

  /** A turn can be taken by a thread that is not done and not held at the barrier, with three draws and a new id. */
  lemma PlayableLaw(w: World, t: Turn)
    ensures Playable(w, t) <==>
      && t.worker < |w.phases| && w.phases[t.worker] != Finished && |t.noise| == 3
      && t.leaseId !in w.market.broker.leases.at.Keys
      && (w.phases[t.worker] == AtBarrier ==> Arriving !in w.phases)
  {
  }

  /** A fault found by the validators decides alone; without one the decision is the budget's. */
  ghost predicate Ruled(group: SampleGroup, lease: RolloutLease, judgedAt: real, s: Setting, decision: GroupDecision)
    requires group.Valid() && IsExp(s.exp)
  {
    var fault := Validators.FirstViolation(group, lease, s.manifest, judgedAt);
    if fault != None then decision == GroupDecision(group.groupId, Rejected, fault, [], None, Contracts.Reject)
    else
      var report := Report(group, Baseline(group), s.policy, None, s.exp);
      report.Ok? && decision == Opbc.Decision(report.value, s.policy)
  }

  lemma RuledLaw(lease: RolloutLease, profile: Profile, noise: seq<real>, judgedAt: real, s: Setting)
    requires lease.Valid() && |noise| == 3 && Fit(s)
    requires Simulation.Verdict(lease, profile, noise, judgedAt, s).Ok?
    ensures Ruled(MakeGroup(lease, profile, noise), lease, judgedAt, s,
                  Simulation.Verdict(lease, profile, noise, judgedAt, s).value)
  {
    hide IsExp, Report, Opbc.Decision, Validators.FirstViolation, MakeGroup, Baseline;
  }

  /**
   What a turn does, by the phase of its thread. Arriving and passing the barrier touch nothing else; a
   fetch is an `acquire_lease` for the thread's worker, and nothing to lease ends the thread; a
   lease in hand is answered by the profile's group, judged by the judging clock and submitted by the
   other; a report is appended to the list. No turn touches another thread.
   */
  ghost predicate TurnTaken(w: World, c: Crew, t: Turn, v: World)
    requires t.worker < |w.phases| == |c.ids| == |c.profiles| && Sound(w.market) && |t.noise| == 3 && Fit(c.setting)
  {
    var i := t.worker;
    && |v.phases| == |w.phases| && (forall k :: 0 <= k < |w.phases| && k != i ==> v.phases[k] == w.phases[k])
    && match w.phases[i]
       case Arriving => v.market == w.market && v.out == w.out && v.phases[i] == AtBarrier
       case AtBarrier => v.market == w.market && v.out == w.out && v.phases[i] == Ready
       case Ready =>
         var (market, reply) := Step(w.market, Op.AcquireLease(c.ids[i], t.leaseId, t.assignmentId, t.now));
         && v.market == market && v.out == w.out && reply.Leased?
         && v.phases[i] == if reply.lease.None? then Finished else Holding(reply.lease.value)
       case Holding(lease) => v.out == w.out && HandedIn(w, c, t, lease, v)
       case Reporting(decision) => v.market == w.market && v.out == w.out + [(i, decision)] && v.phases[i] == Ready
       case Finished => false
  }

  ghost predicate HandedIn(w: World, c: Crew, t: Turn, lease: RolloutLease, v: World)
    requires t.worker < |w.phases| == |c.ids| == |c.profiles| == |v.phases|
    requires Sound(w.market) && |t.noise| == 3 && Fit(c.setting)
  {
    exists group: SampleGroup, decision ::
      && group.Valid() && IsMade(group, lease, c.profiles[t.worker], t.noise)
      && Ruled(group, lease, t.judgedAt, c.setting, decision) && v.phases[t.worker] == Reporting(decision)
      && Step(w.market, Op.SubmitGroup(c.ids[t.worker], lease.leaseId, group, decision, t.now)) == (v.market, Done)
  }

  lemma {:induction false} HandInLaw(w: World, c: Crew, t: Turn, lease: RolloutLease)
    requires t.worker < |w.phases| == |c.ids| == |c.profiles| && |t.noise| == 3
    requires lease.Valid() && Fit(c.setting) && Sound(w.market)
    requires HandIn(w, c, t, lease).Running?
    ensures var v := HandIn(w, c, t, lease).world;
      && v == World(v.market, w.phases[t.worker := v.phases[t.worker]], w.out) && |v.phases| == |w.phases|
      && HandedIn(w, c, t, lease, v)
  {
    hide Simulation.Verdict, MakeGroup, IsMade, Ruled, WorkerBroker.SubmitGroup, Fit;
    var profile := c.profiles[t.worker];
    MadeLaw(lease, profile, t.noise);
    RuledLaw(lease, profile, t.noise, t.judgedAt, c.setting);
  }

  lemma {:induction false} TurnLaw(w: World, c: Crew, t: Turn)
    requires Playable(w, t) && |c.ids| == |c.profiles| == |w.phases| && LeasesHeldValid(w) && Fit(c.setting)
    requires Sound(w.market) && TakeTurn(w, c, t).Running?
    ensures TurnTaken(w, c, t, TakeTurn(w, c, t).world)
  {
    hide HandIn, HandedIn, Fit, WorkerBroker.AcquireLease;
    if w.phases[t.worker].Holding? {
      HandInLaw(w, c, t, w.phases[t.worker].lease);
    }
  }

  lemma {:induction false} TurnKeepsTtls(w: World, c: Crew, t: Turn)
    requires Playable(w, t) && |c.ids| == |c.profiles| == |w.phases| && LeasesHeldValid(w) && Fit(c.setting)
    requires TakeTurn(w, c, t).Running?
    ensures var b := TakeTurn(w, c, t).world.market.broker;
      b.leaseTtl == w.market.broker.leaseTtl && b.heartbeatTtl == w.market.broker.heartbeatTtl
  {
    hide Fit, NextJob, Simulation.Verdict, MakeGroup, LiveStore.Submit;
  }

  /** No schedule changes the times to live. */
  lemma {:induction false} PlayKeepsTtls(w: World, c: Crew, turns: seq<Turn>)
    requires |c.ids| == |c.profiles| == |w.phases| && Fit(c.setting) && Play(w, c, turns).Running?
    ensures var b := Play(w, c, turns).world.market.broker;
      b.leaseTtl == w.market.broker.leaseTtl && b.heartbeatTtl == w.market.broker.heartbeatTtl
    decreases turns
  {
    hide Fit, TakeTurn, Playable, LeasesHeldValid;
    if turns == [] {
    } else {
      TurnKeepsTtls(w, c, turns[0]);
      TurnKeepsThreads(w, c, turns[0]);
      PlayKeepsTtls(TakeTurn(w, c, turns[0]).world, c, turns[1..]);
    }
  }

  // ----- the counters

  /** A counter: exactly the listed keys, each with the number of its places in the list. */
  ghost predicate Tallies<K(!new)>(counts: map<K, nat>, keys: seq<K>) {
    forall k :: (k in counts <==> k in keys) && (k in counts ==> counts[k] == |set i | 0 <= i < |keys| && keys[i] == k|)
  }

  lemma {:induction false} PlacesCount<K(!new)>(keys: seq<K>, k: K)
    ensures multiset(keys)[k] == |set i | 0 <= i < |keys| && keys[i] == k|
  {
    var places := set i | 0 <= i < |keys| && keys[i] == k;
    if keys == [] {
      assert places == {};
    } else {
      var n := |keys| - 1;
      PlacesCount(keys[..n], k);
      assert keys == keys[..n] + [keys[n]];
      var before := set i | 0 <= i < |keys[..n]| && keys[..n][i] == k;
      assert places == if keys[n] == k then before + {n} else before;
    }
  }

  lemma TalliesLaw<K(!new)>(counts: map<K, nat>, keys: seq<K>)
    requires Counts(counts, keys)
    ensures Tallies(counts, keys)
  {
    forall k ensures (k in counts <==> k in keys)
                  && (k in counts ==> counts[k] == |set i | 0 <= i < |keys| && keys[i] == k|) {
      PlacesCount(keys, k);
      assert Lookup(counts, k) == multiset(keys)[k];
    }
  }

  /**
   What the counters count, result by result: worker and action, profile and action, the reason of a
   rejection, all reasons of a decision.
   */
  lemma ListedLaw(out: seq<(nat, GroupDecision)>, last: (nat, GroupDecision), ids: seq<string>, profiles: seq<Profile>)
    requires |ids| == |profiles| && last.0 < |ids| && forall k :: 0 <= k < |out| ==> out[k].0 < |ids|
    ensures var all, d := out + [last], last.1;
      && WorkerActions(all, ids) == WorkerActions(out, ids) + [(ids[last.0], d.recommendedAction)]
      && ProfileActions(all, profiles) == ProfileActions(out, profiles) + [(profiles[last.0], d.recommendedAction)]
      && Rejections(all) == Rejections(out) + (if d.rejectionReason == None then [] else [d.rejectionReason.value])
      && Reasons(all) == Reasons(out) + d.decisionReasons
    ensures WorkerActions([], ids) == [] && ProfileActions([], profiles) == []
    ensures Rejections([]) == [] && Reasons([]) == []
  {
    assert (out + [last])[..|out|] == out;
  }

  lemma {:induction false} EventsLaw(audit: seq<AuditEntry>)
    ensures |EventsOf(audit)| == |audit| && forall k :: 0 <= k < |audit| ==> EventsOf(audit)[k] == audit[k].event
  {
    if audit == [] {
    } else {
      EventsLaw(audit[..|audit| - 1]);
    }
  }
}
