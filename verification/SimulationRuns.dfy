/** Whole simulations: how the threads start out, and what every schedule from there comes to. */
module SimulationRuns {
  import opened Wrappers
  import opened Dicts
  import opened Contracts
  import opened Opbc
  import opened WorkerBroker
  import opened BrokerInvariants
  import opened Marketplace
  import opened WorkerLoop
  import opened Simulation
  import opened WorkerThreads
  import Histories
  import LiveStore

  // ----- the start

  /** A worker registers and sends its first heartbeat. */
  function Join(b: Broker, manifest: WorkerManifest, now: real): Broker {
    var registered := WorkerBroker.RegisterWorker(b, manifest, now);
    match WorkerBroker.Heartbeat(registered, WorkerHeartbeat(manifest.workerId, now), now)
    case Ok(r) => r
    case Raised(_) => registered
  }

  function Enlist(b: Broker, manifests: seq<WorkerManifest>, now: real): Broker {
    if manifests == [] then b
    else Join(Enlist(b, manifests[..|manifests| - 1], now), manifests[|manifests| - 1], now)
  }

  function Enqueue(b: Broker, jobs: seq<RolloutJob>, now: real): Broker {
    if jobs == [] then b else WorkerBroker.SubmitJob(Enqueue(b, jobs[..|jobs| - 1], now), jobs[|jobs| - 1], now)
  }

  function Start(manifests: seq<WorkerManifest>, jobs: seq<RolloutJob>, leaseTtl: real, heartbeatTtl: real, now: real)
    : World
  {
    World(Market(Enqueue(Enlist(EmptyBroker(leaseTtl, heartbeatTtl), manifests, now), jobs, now), EmptyDict()),
          seq(|manifests|, _ => Arriving), [])
  }

  /** Distinct jobs with distinct keys, and workers each able to serve every job. */
  ghost predicate FitForEachOther(manifests: seq<WorkerManifest>, jobs: seq<RolloutJob>) {
    && (forall i, k :: 0 <= i < k < |manifests| ==> manifests[i].workerId != manifests[k].workerId)
    && (forall i, k :: 0 <= i < k < |jobs| ==>
          jobs[i].jobId != jobs[k].jobId && jobs[i].idempotencyKey != jobs[k].idempotencyKey)
    && (forall j :: j in jobs ==> j.Valid())
    && (forall j, m :: j in jobs && m in manifests ==> CapabilitiesMatch(j, m))
  }

  function Ids(manifests: seq<WorkerManifest>): seq<string> {
    seq(|manifests|, i requires 0 <= i < |manifests| => manifests[i].workerId)
  }

  function CrewOf(manifests: seq<WorkerManifest>, profiles: seq<Profile>, setting: Setting): Crew {
    Crew(Ids(manifests), profiles, setting)
  }

  /** What joining leaves alone. */
  ghost predicate OnlyWorkersChanged(b: Broker, r: Broker) {
    && r.deadWorkers == {} && r.jobs == b.jobs && r.leases == b.leases && r.leaseTtl == b.leaseTtl
    && r.leasedJobIds == b.leasedJobIds && r.idempotencyKeys == b.idempotencyKeys
  }

  lemma {:induction false} JoinShape(b: Broker, manifest: WorkerManifest, now: real)
    requires Inv(b) && b.deadWorkers == {}
    ensures var r := Join(b, manifest, now);
      Inv(r) && OnlyWorkersChanged(b, r) && r.workers == b.workers.Put(manifest.workerId, manifest)
  {
    hide Inv;
    RegisterWorkerInv(b, manifest, now);
    HeartbeatInv(WorkerBroker.RegisterWorker(b, manifest, now), WorkerHeartbeat(manifest.workerId, now), now);
  }

  lemma {:induction false} EnlistShape(b: Broker, manifests: seq<WorkerManifest>, now: real)
    requires Inv(b) && b.deadWorkers == {}
    requires forall i, k :: 0 <= i < k < |manifests| ==> manifests[i].workerId != manifests[k].workerId
    ensures var r := Enlist(b, manifests, now);
      && Inv(r) && OnlyWorkersChanged(b, r)
      && (forall i :: 0 <= i < |manifests| ==>
            manifests[i].workerId in r.workers.at && r.workers.at[manifests[i].workerId] == manifests[i])
  {
    hide Inv, Join;
    if manifests == [] {
    } else {
      var n := |manifests| - 1;
      EnlistShape(b, manifests[..n], now);
      JoinShape(Enlist(b, manifests[..n], now), manifests[n], now);
      assert forall i :: 0 <= i < n ==> manifests[..n][i] == manifests[i];
    }
  }

  /** What enqueueing leaves alone. */
  ghost predicate OnlyJobsChanged(b: Broker, r: Broker) {
    && r.workers == b.workers && r.deadWorkers == b.deadWorkers && r.leases == b.leases && r.leaseTtl == b.leaseTtl
    && r.leasedJobIds == b.leasedJobIds && r.idempotencyKeys == b.idempotencyKeys
  }

  /** The queue holds exactly the given jobs. */
  ghost predicate Queued(queue: Dict<string, RolloutJob>, jobs: seq<RolloutJob>) {
    && |queue.keys| == |jobs|
    && (forall i :: 0 <= i < |jobs| ==> jobs[i].jobId in queue.at && queue.at[jobs[i].jobId] == jobs[i])
    && (forall j :: j in queue.at ==> queue.at[j] in jobs && queue.at[j].jobId == j)
  }

  lemma {:induction false} EnqueueShape(b: Broker, jobs: seq<RolloutJob>, now: real)
    requires Inv(b) && b.jobs == EmptyDict()
    requires forall i, k :: 0 <= i < k < |jobs| ==> jobs[i].jobId != jobs[k].jobId
    ensures Inv(Enqueue(b, jobs, now)) && OnlyJobsChanged(b, Enqueue(b, jobs, now))
    ensures Queued(Enqueue(b, jobs, now).jobs, jobs)
  {
    hide Inv, Queued, OnlyJobsChanged, WorkerBroker.SubmitJob;
    if jobs == [] {
      NoneQueued();
      SameBroker(b);
    } else {
      var n := |jobs| - 1;
      EnqueueShape(b, jobs[..n], now);
      var before := Enqueue(b, jobs[..n], now);
      SubmitJobInv(before, jobs[n], now);
      OneMoreJob(b, before, jobs[..n], jobs[n], now);
      assert jobs == jobs[..n] + [jobs[n]];
    }
  }

  lemma SameBroker(b: Broker)
    ensures OnlyJobsChanged(b, b)
  {
  }

  lemma {:induction false} OneMoreJob(b: Broker, before: Broker, jobs: seq<RolloutJob>, job: RolloutJob, now: real)
    requires OnlyJobsChanged(b, before) && Queued(before.jobs, jobs)
    requires forall i :: 0 <= i < |jobs| ==> jobs[i].jobId != job.jobId
    ensures var r := WorkerBroker.SubmitJob(before, job, now); OnlyJobsChanged(b, r) && Queued(r.jobs, jobs + [job])
  {
  }

  lemma NoneQueued()
    ensures Queued(EmptyDict(), [])
  {
  }

  lemma {:induction false} TotalSame(phases: seq<Phase>, p: Phase, f: Phase -> nat)
    requires forall i :: 0 <= i < |phases| ==> phases[i] == p
    ensures Total(phases, f) == |phases| * f(p)
  {
    if phases == [] {
    } else {
      assert forall i :: 0 <= i < |phases[1..]| ==> phases[1..][i] == phases[i + 1];
      TotalSame(phases[1..], p, f);
    }
  }

  lemma {:induction false} StartBroker(manifests: seq<WorkerManifest>, jobs: seq<RolloutJob>, leaseTtl: real,
                                       heartbeatTtl: real, now: real)
    requires FitForEachOther(manifests, jobs) && leaseTtl > 0.0
    ensures var b := Start(manifests, jobs, leaseTtl, heartbeatTtl, now).market.broker;
      && Inv(b) && CrewReady(b, Ids(manifests)) && JobsReady(b, Ids(manifests))
      && b.leases == EmptyDict() && b.idempotencyKeys == map[] && b.leasedJobIds == {} && Queued(b.jobs, jobs)
      && b.leaseTtl == leaseTtl
  {
    hide Inv, CapabilitiesMatch, Enlist, Enqueue, RolloutJob.Valid, CrewReady, JobsReady;
    var e := EmptyBroker(leaseTtl, heartbeatTtl);
    EmptyInv(leaseTtl, heartbeatTtl);
    EnlistShape(e, manifests, now);
    var b := Enlist(e, manifests, now);
    EnqueueShape(b, jobs, now);
    EveryoneReady(Enqueue(b, jobs, now), manifests, jobs);
  }

  lemma {:induction false} EveryoneReady(b: Broker, manifests: seq<WorkerManifest>, jobs: seq<RolloutJob>)
    requires FitForEachOther(manifests, jobs) && b.leaseTtl > 0.0 && b.deadWorkers == {}
    requires forall i :: 0 <= i < |manifests| ==>
      manifests[i].workerId in b.workers.at && b.workers.at[manifests[i].workerId] == manifests[i]
    requires forall j :: j in b.jobs.at ==> b.jobs.at[j] in jobs && b.jobs.at[j].jobId == j
    ensures CrewReady(b, Ids(manifests)) && JobsReady(b, Ids(manifests))
  {
  }

  /** The simulation starts in its invariant, with three turns to go for each job and for each worker. */
  lemma {:induction false} StartInv(manifests: seq<WorkerManifest>, profiles: seq<Profile>, jobs: seq<RolloutJob>,
                                    s: Setting, leaseTtl: real, heartbeatTtl: real, now: real)
    requires FitForEachOther(manifests, jobs) && |profiles| == |manifests| && leaseTtl > 0.0 && Fit(s)
    ensures var w := Start(manifests, jobs, leaseTtl, heartbeatTtl, now);
      && SimInv(w, CrewOf(manifests, profiles, s)) && Measure(w) == 3 * (|jobs| + |manifests|)
      && Queued(w.market.broker.jobs, jobs)
  {
    hide Inv, CrewReady, JobsReady, Fit, FitForEachOther, Enlist, Enqueue, Histories.HandinsSettled;
    StartBroker(manifests, jobs, leaseTtl, heartbeatTtl, now);
    var w := Start(manifests, jobs, leaseTtl, heartbeatTtl, now);
    NothingYet(w.market, w.phases, Ids(manifests));
    WellFormedJobs(w.market.broker);
    TotalSame(w.phases, Arriving, Weight);
    TotalSame(w.phases, Arriving, Unreported);
    hide HeldBack, StoreNamed, Reported, InState;
  }

  lemma {:induction false} NothingYet(m: Market, phases: seq<Phase>, ids: seq<string>)
    requires m.broker.leases == EmptyDict() && m.broker.idempotencyKeys == map[] && m.broker.leasedJobIds == {}
    requires m.store == EmptyDict() && |phases| == |ids| && forall i :: 0 <= i < |phases| ==> phases[i].Arriving?
    ensures Sound(m) && Histories.Settled(m) && RowsTidy(m.broker) && HeldBack(m.broker.leases.at, phases, ids)
    ensures StoreNamed(m.broker.leases.at, m.store.at) && Reported(m.store.at, phases, [], ids)
    ensures |InState(m.broker, Submitted)| == 0
    ensures FreeJobs(m.broker) == m.broker.jobs.at.Keys
  {
  }

  lemma {:induction false} WellFormedJobs(b: Broker)
    requires Inv(b)
    ensures b.jobs.Valid() && |b.jobs.at.Keys| == |b.jobs.keys|
  {
    hide Stamped, DeadHoldNothing, LeaseDiscipline, Accounts, AuditFaithful;
    DistinctCardinality(b.jobs.keys, b.jobs.at.Keys);
  }

  /**
   For any jobs and any n >= 1 workers able to serve them: every schedule of the worker threads is
   free of exceptions and no longer than 3 (jobs + workers) turns; it can be extended until all
   threads are done; and a schedule after which all are done has exactly that length and has served
   every job exactly once.
   */
  lemma {:induction false} EveryScheduleServesAll(manifests: seq<WorkerManifest>, profiles: seq<Profile>,
                                                  jobs: seq<RolloutJob>, s: Setting, leaseTtl: real, heartbeatTtl: real,
                                                  now: real, turns: seq<Turn>)
    requires FitForEachOther(manifests, jobs) && |profiles| == |manifests| >= 1 && leaseTtl > 0.0 && Fit(s)
    ensures var w, c := Start(manifests, jobs, leaseTtl, heartbeatTtl, now), CrewOf(manifests, profiles, s);
      && |c.ids| == |c.profiles| == |w.phases|
      && var r := Play(w, c, turns);
      && !r.Crashed?
      && (|turns| > 3 * (|jobs| + |manifests|) ==> r.Unplayable?)
      && (r.Running? ==>
            && (AllFinished(r.world) <==> |turns| == 3 * (|jobs| + |manifests|))
            && (!AllFinished(r.world) ==> exists i :: Enabled(r.world, i))
            && LeasesHeldValid(r.world)
            && Queued(r.world.market.broker.jobs, jobs)
            && (AllFinished(r.world) ==> AllServed(r.world, c.ids)))
  {
    hide SimInv, TakeTurn, Measure, Fit, FitForEachOther, Start;
    var w, c := Start(manifests, jobs, leaseTtl, heartbeatTtl, now), CrewOf(manifests, profiles, s);
    StartInv(manifests, profiles, jobs, s, leaseTtl, heartbeatTtl, now);
    SchedulesNeverCrash(w, c, turns);
    hide Play;
    var r := Play(w, c, turns);
    if r.Running? {
      CrewSize(r.world, c);
      if AllFinished(r.world) {
        CompletionServesAll(r.world, c);
      } else {
        var i := SomeThreadCanMove(r.world);
        UnfinishedMeasure(r.world);
      }
    }
  }

  lemma {:induction false} CrewSize(w: World, c: Crew)
    requires SimInv(w, c)
    ensures |w.phases| == |c.ids|
  {
  }

  lemma {:induction false} UnfinishedMeasure(w: World)
    requires !AllFinished(w)
    ensures Measure(w) > 0
  {
    var i :| 0 <= i < |w.phases| && !w.phases[i].Finished?;
    TotalAtLeast(w.phases, i);
  }

  lemma {:induction false} TotalAtLeast(phases: seq<Phase>, i: nat)
    requires i < |phases|
    ensures Total(phases, Weight) >= Weight(phases[i])
  {
    if i == 0 {
    } else {
      TotalAtLeast(phases[1..], i - 1);
    }
  }
}
