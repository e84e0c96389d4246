/** The simulation as a program: the threads work on one shared broker and store, in any order a scheduler picks. */
module SimulationObjects {
  import opened Wrappers
  import opened Dicts
  import opened Contracts
  import opened Opbc
  import opened Validators
  import opened LiveStoreObjects
  import opened BrokerObjects
  import opened WorkerLoop
  import opened Simulation
  import opened WorkerThreads
  import opened SimulationRuns
  import opened SimulationCounters
  import opened SimulationOutcomes
  import opened Profiles
  import BrokerInvariants
  import Marketplace
  import SimulationLaws
  import opened WorkerBroker
  import LiveStore

  /** Validate, then score: the part of a turn that touches no shared object. */
  method JudgeGroup(group: SampleGroup, lease: RolloutLease, now: real, s: Setting) returns (r: Result<GroupDecision>)
    requires group.Valid() && Fit(s)
    ensures r == Judge(group, lease, now, s)
  {
    hide IsExp, Report, Opbc.Decision, FirstViolation;
    var rejected := Validate(group, lease, s.manifest, now);
    if rejected.Some? {
      return Ok(rejected.value);
    }
    var train := TrainLogprobsFor(group);
    var report := ComputeBudgetReport(group, train, s.policy, None, s.exp);
    if report.Raised? {
      return Raised(report.error);
    }
    var decision := DecideGroup(report.value, s.policy);
    r := Ok(decision);
  }

  /** The shared objects, the threads' places and their common list, as the world they stand for. */
  ghost predicate Mirrors(broker: LocalWorkerBroker, phases: seq<Phase>, out: seq<(nat, GroupDecision)>, w: World)
    reads broker, broker.leases.at.Values, broker.store, broker.store.records.at.Values
  {
    && broker.Valid() && broker.store.Valid()
    && w == World(Marketplace.Market(broker.Model(), broker.store.Model()), phases, out)
  }

  method FetchOnce(broker: LocalWorkerBroker, phases: seq<Phase>, out: seq<(nat, GroupDecision)>, c: Crew, t: Turn,
                   ghost w: World) returns (p: Phase)
    requires Mirrors(broker, phases, out, w) && Playable(w, t) && w.phases[t.worker].Ready? && |c.ids| == |w.phases|
    requires Fetch(w, c, t).Running?
    modifies broker
    ensures fresh(broker.leases.at.Values - old(broker.leases.at.Values))
    ensures Mirrors(broker, phases[t.worker := p], out, Fetch(w, c, t).world)
  {
    hide WorkerBroker.AcquireLease, LocalWorkerBroker.Valid, LocalWorkerBroker.Model;
    broker.LeaseAt(t.leaseId);
    var lease := broker.AcquireLease(c.ids[t.worker], t.leaseId, t.assignmentId, t.now);
    p := if lease.Ok? && lease.value.Some? then Holding(lease.value.value) else Finished;
  }

  method HandInOnce(broker: LocalWorkerBroker, phases: seq<Phase>, out: seq<(nat, GroupDecision)>, c: Crew, t: Turn,
                    ghost w: World) returns (p: Phase)
    requires Mirrors(broker, phases, out, w) && Playable(w, t) && w.phases[t.worker].Holding?
    requires |c.ids| == |c.profiles| == |w.phases| && w.phases[t.worker].lease.Valid() && Fit(c.setting)
    requires HandIn(w, c, t, w.phases[t.worker].lease).Running?
    modifies broker, broker.leases.at.Values, broker.store
    ensures broker.leases == old(broker.leases)
    ensures fresh(broker.store.records.at.Values - old(broker.store.records.at.Values))
    ensures Mirrors(broker, phases[t.worker := p], out, HandIn(w, c, t, w.phases[t.worker].lease).world)
  {
    hide WorkerBroker.SubmitGroup, LocalWorkerBroker.Valid, LocalWorkerBroker.Model, Judge, MakeGroup, Fit;
    var lease := phases[t.worker].lease;
    var group := MakeGroup(lease, c.profiles[t.worker], t.noise);
    var verdict := JudgeGroup(group, lease, t.judgedAt, c.setting);
    var stored := broker.SubmitGroup(c.ids[t.worker], lease.leaseId, group, verdict.value, t.now);
    p := Reporting(verdict.value);
  }

  /** One turn of one thread. */
  method OneTurn(broker: LocalWorkerBroker, phases: seq<Phase>, out: seq<(nat, GroupDecision)>, c: Crew, t: Turn,
                 ghost w: World) returns (after: seq<Phase>, more: seq<(nat, GroupDecision)>)
    requires Mirrors(broker, phases, out, w) && SimInv(w, c) && Playable(w, t)
    modifies broker, broker.leases.at.Values, broker.store
    ensures fresh(broker.leases.at.Values - old(broker.leases.at.Values))
    ensures fresh(broker.store.records.at.Values - old(broker.store.records.at.Values))
    ensures |c.ids| == |c.profiles| == |w.phases| && LeasesHeldValid(w) && Fit(c.setting)
    ensures GoodTurn(w, c, TakeTurn(w, c, t)) && Mirrors(broker, after, more, TakeTurn(w, c, t).world)
  {
    hide Fit, SimInv, Measure, Fetch, HandIn, LocalWorkerBroker.Valid, LocalWorkerBroker.Model, InMemoryLiveStore.Valid,
      InMemoryLiveStore.Model;
    TurnKeeps(w, c, t);
    after, more := phases, out;
    match phases[t.worker]
    case Arriving =>
      after := phases[t.worker := AtBarrier];
    case AtBarrier =>
      after := phases[t.worker := Ready];
    case Ready =>
      var p := FetchOnce(broker, phases, out, c, t, w);
      after := phases[t.worker := p];
    case Holding(_) =>
      var p := HandInOnce(broker, phases, out, c, t, w);
      after := phases[t.worker := p];
    case Reporting(decision) =>
      more := out + [(t.worker, decision)];
      after := phases[t.worker := Ready];
  }

  // ----- the whole simulation

  method BuildWorkers(broker: LocalWorkerBroker, manifests: seq<WorkerManifest>, now: real)
    requires broker.Valid()
    modifies broker
    ensures broker.Valid() && broker.leases == old(broker.leases)
    ensures broker.Model() == Enlist(old(broker.Model()), manifests, now)
  {
    hide LocalWorkerBroker.Valid, LocalWorkerBroker.Model, WorkerBroker.RegisterWorker, WorkerBroker.Heartbeat;
    ghost var start := broker.Model();
    for i := 0 to |manifests|
      invariant broker.Valid() && broker.leases == old(broker.leases)
      invariant broker.Model() == Enlist(start, manifests[..i], now)
    {
      assert manifests[..i + 1][..i] == manifests[..i];
      broker.RegisterWorker(manifests[i], now);
      var _ := broker.Heartbeat(WorkerHeartbeat(manifests[i].workerId, now), now);
    }
    assert manifests[..|manifests|] == manifests;
  }

  method SubmitJobs(broker: LocalWorkerBroker, jobs: seq<RolloutJob>, now: real)
    requires broker.Valid()
    modifies broker
    ensures broker.Valid() && broker.leases == old(broker.leases)
    ensures broker.Model() == Enqueue(old(broker.Model()), jobs, now)
  {
    hide LocalWorkerBroker.Valid, LocalWorkerBroker.Model, WorkerBroker.SubmitJob;
    ghost var start := broker.Model();
    for i := 0 to |jobs|
      invariant broker.Valid() && broker.leases == old(broker.leases)
      invariant broker.Model() == Enqueue(start, jobs[..i], now)
    {
      assert jobs[..i + 1][..i] == jobs[..i];
      broker.SubmitJob(jobs[i], now);
    }
    assert jobs[..|jobs|] == jobs;
  }

  /** What the program draws from outside: uuids never repeat, each draw of noise has three numbers. */
  datatype Outside = Outside(
    uuid: nat -> string,
    assignment: nat -> string,
    noise: nat -> seq<real>,
    judgeClock: nat -> real,
    clock: nat -> real)

  ghost predicate Proper(o: Outside) {
    && (forall i: nat, k: nat :: o.uuid(i) == o.uuid(k) ==> i == k)
    && (forall k: nat :: |o.noise(k)| == 3)
  }

  ghost predicate DrawnBefore(w: World, o: Outside, k: nat) {
    forall id :: id in w.market.broker.leases.at ==> exists j: nat :: j < k && o.uuid(j) == id
  }

  lemma {:induction false} FreshDraw(w: World, t: Turn, o: Outside, k: nat)
    requires Proper(o) && DrawnBefore(w, o, k) && t.leaseId == o.uuid(k)
    requires CanMove(w.phases, t.worker) && |t.noise| == 3
    ensures Playable(w, t)
  {
  }

  lemma {:induction false} StillDrawn(w: World, c: Crew, t: Turn, o: Outside, k: nat)
    requires DrawnBefore(w, o, k) && t.leaseId == o.uuid(k)
    requires Playable(w, t) && |c.ids| == |c.profiles| == |w.phases| && LeasesHeldValid(w) && Fit(c.setting)
    requires TakeTurn(w, c, t).Running?
    ensures DrawnBefore(TakeTurn(w, c, t).world, o, k + 1)
  {
    hide Fit, TakeTurn, LeasesHeldValid;
    TurnDrawsOneId(w, c, t);
    var v := TakeTurn(w, c, t).world;
    forall id | id in v.market.broker.leases.at ensures exists j: nat :: j < k + 1 && o.uuid(j) == id {
      if id in w.market.broker.leases.at {
        var j: nat :| j < k && o.uuid(j) == id;
      }
    }
  }

  /** Turn k draws the k-th uuids, noise and clock readings. */
  ghost predicate DrawnFrom(turns: seq<Turn>, o: Outside) {
    forall k :: 0 <= k < |turns| ==>
      && turns[k].leaseId == o.uuid(k) && turns[k].assignmentId == o.assignment(k) && turns[k].noise == o.noise(k)
      && turns[k].judgedAt == o.judgeClock(k) && turns[k].now == o.clock(k)
  }

  /**
   The threads, run to the end: the scheduler picks any thread that can move, turn after turn. The
   turns taken are a schedule of the transition system, and the objects end as it says.
   */
  method RunThreads(broker: LocalWorkerBroker, c: Crew, o: Outside, ghost start: World)
    returns (phases: seq<Phase>, out: seq<(nat, GroupDecision)>, ghost turns: seq<Turn>)
    requires Mirrors(broker, start.phases, [], start) && SimInv(start, c) && DrawnBefore(start, o, 0) && Proper(o)
    requires |start.phases| == |c.ids| == |c.profiles| && Fit(c.setting)
    requires forall i :: 0 <= i < |start.phases| ==> start.phases[i].Arriving?
    modifies broker, broker.leases.at.Values, broker.store
    ensures Play(start, c, turns).Running? && DrawnFrom(turns, o)
    ensures Mirrors(broker, phases, out, Play(start, c, turns).world) && AllFinished(Play(start, c, turns).world)
  {
    hide SimInv, Mirrors, TakeTurn, LeasesHeldValid, Fit, Measure, DrawnBefore, Proper, Play, Playable;
    phases, out, turns := seq(|c.ids|, _ => Arriving), [], [];
    ghost var end := start;
    assert phases == start.phases;
    MirroredPhases(broker, phases, out, start);
    NothingPlayed(start, c);
    var k := 0;
    while exists i :: 0 <= i < |phases| && !phases[i].Finished?
      invariant Mirrors(broker, phases, out, end) && end.phases == phases && SimInv(end, c) && |phases| == |c.ids|
      invariant Play(start, c, turns) == Running(end) && DrawnFrom(turns, o) && |turns| == k && DrawnBefore(end, o, k)
      invariant fresh(broker.leases.at.Values - old(broker.leases.at.Values))
      decreases Measure(end)
    {
      ghost var movable := SomeThreadCanMove(end);
      var i :| 0 <= i < |phases| && CanMove(phases, i);
      NoiseOf(o, k);
      var t := Turn(i, o.uuid(k), o.assignment(k), o.noise(k), o.judgeClock(k), o.clock(k));
      FreshDraw(end, t, o, k);
      ghost var before := end;
      phases, out := OneTurn(broker, phases, out, c, t, before);
      end := TakeTurn(before, c, t).world;
      MirroredPhases(broker, phases, out, end);
      PlayOneMore(start, c, turns, t);
      turns := turns + [t];
      StillDrawn(before, c, t, o, k);
      CrewSize(end, c);
      k := k + 1;
    }
  }

  lemma NothingPlayed(w: World, c: Crew)
    requires |c.ids| == |c.profiles| == |w.phases| && Fit(c.setting)
    ensures Play(w, c, []) == Running(w)
  {
  }

  lemma NoiseOf(o: Outside, k: nat)
    requires Proper(o)
    ensures |o.noise(k)| == 3
  {
  }

  lemma MirroredPhases(broker: LocalWorkerBroker, phases: seq<Phase>, out: seq<(nat, GroupDecision)>, w: World)
    requires Mirrors(broker, phases, out, w)
    ensures w.phases == phases && w.out == out
    ensures broker.Valid() && broker.store.Valid()
    ensures w.market == Marketplace.Market(broker.Model(), broker.store.Model())
  {
  }

  datatype SimulationResult = SimulationResult(
    jobsTotal: nat,
    submissions: nat,
    byWorkerAction: map<(string, Action), nat>,
    byProfileAction: map<(Profile, Action), nat>,
    rejectionReasons: map<RejectionReason, nat>,
    decisionReasons: map<DecisionReason, nat>,
    livestoreByState: map<GroupStatus, nat>,
    auditEventCounts: map<Event, nat>)

  /** The counters say what the final world holds. */
  ghost predicate Reports(r: SimulationResult, c: Crew, end: World)
    requires |c.ids| == |c.profiles| && forall k :: 0 <= k < |end.out| ==> end.out[k].0 < |c.ids|
    requires end.market.store.Valid()
  {
    && r.submissions == |end.out|
    && Counts(r.byWorkerAction, WorkerActions(end.out, c.ids))
    && Counts(r.byProfileAction, ProfileActions(end.out, c.profiles))
    && Counts(r.rejectionReasons, Rejections(end.out)) && Counts(r.decisionReasons, Reasons(end.out))
    && Counts(r.auditEventCounts, EventsOf(end.market.broker.audit))
    && forall st :: Lookup(r.livestoreByState, st) == LiveStore.CountState(end.market.store, end.market.store.keys, st)
         && (st in r.livestoreByState <==> Lookup(r.livestoreByState, st) > 0)
  }

  /** The audit log of a simulation tells of every lease issued and submitted, and of none lost. */
  ghost predicate NothingLost(r: SimulationResult) {
    && Lookup(r.auditEventCounts, LeaseIssued) == Lookup(r.auditEventCounts, LeaseSubmitted) == r.jobsTotal
    && r.jobsTotal == r.submissions
    && LeaseFailed !in r.auditEventCounts && LeaseExpired !in r.auditEventCounts
    && LeaseAbandoned !in r.auditEventCounts
  }

  /** Every profile has at most one action in the counter: the expected one. */
  ghost predicate OnlyExpected(counts: map<(Profile, Action), nat>) {
    forall p, a :: (p, a) in counts ==> a == Expected(p).1
  }

  /** All clock readings and draws of a run that is over within 30 seconds. */
  ghost predicate Brisk(o: Outside, startAt: real) {
    forall k: nat :: startAt <= o.clock(k) && o.judgeClock(k) < startAt + 30.0 && SmallNoise(o.noise(k))
  }

  /** Store, broker, workers and jobs before any thread starts. */
  method SetUp(manifests: seq<WorkerManifest>, profiles: seq<Profile>, jobs: seq<RolloutJob>, s: Setting, startAt: real)
    returns (broker: LocalWorkerBroker, ghost start: World)
    requires FitForEachOther(manifests, jobs) && |profiles| == |manifests| && Fit(s)
    ensures start == Start(manifests, jobs, 30.0, 120.0, startAt)
    ensures fresh(broker) && fresh(broker.store) && fresh(broker.leases.at.Values)
    ensures Mirrors(broker, start.phases, [], start)
  {
    hide Fit, FitForEachOther, LocalWorkerBroker.Valid, LocalWorkerBroker.Model, Enlist, Enqueue;
    var store := new InMemoryLiveStore();
    broker := new LocalWorkerBroker(store, 30.0, 120.0);
    BuildWorkers(broker, manifests, startAt);
    SubmitJobs(broker, jobs, startAt);
    start := Start(manifests, jobs, 30.0, 120.0, startAt);
  }

  /** The counting loops at the end of a simulation. */
  method Count(broker: LocalWorkerBroker, phases: seq<Phase>, out: seq<(nat, GroupDecision)>, c: Crew, jobsTotal: nat,
               ghost end: World) returns (r: SimulationResult)
    requires Mirrors(broker, phases, out, end)
    requires |c.ids| == |c.profiles| && forall k :: 0 <= k < |out| ==> out[k].0 < |c.ids|
    ensures end.out == out && end.market.store.Valid() && Reports(r, c, end) && r.jobsTotal == jobsTotal
  {
    hide LocalWorkerBroker.Valid, Counts, LiveStore.CountState;
    MirroredPhases(broker, phases, out, end);
    broker.store.RecordAt("");
    var byWorker, byProfile, rejections, reasons := CountResults(out, c.ids, c.profiles);
    var counts := broker.store.CountByState();
    var events := CountAudit(broker.audit);
    r := SimulationResult(jobsTotal, |out|, byWorker, byProfile, rejections, reasons,
                          map st | st in counts && counts[st] > 0 :: counts[st], events);
    EveryCounted(counts);
  }

  /** What holds of the schedule that a simulation took, and of the world it ended in. */
  lemma {:induction false} Outcome(manifests: seq<WorkerManifest>, profiles: seq<Profile>, jobs: seq<RolloutJob>,
                                   s: Setting, startAt: real, o: Outside, turns: seq<Turn>)
    requires FitForEachOther(manifests, jobs) && |profiles| == |manifests| >= 1 && Fit(s) && DrawnFrom(turns, o)
    ensures var w, c := Start(manifests, jobs, 30.0, 120.0, startAt), CrewOf(manifests, profiles, s);
      && |c.ids| == |c.profiles| == |w.phases|
      && (Play(w, c, turns).Running? && AllFinished(Play(w, c, turns).world) ==>
            var end := Play(w, c, turns).world;
            && AllServed(end, c.ids) && Queued(end.market.broker.jobs, jobs) && |end.out| == |jobs|
            && LogOfAll(end, |jobs|)
            && (Brisk(o, startAt) && DefaultSetting(s) && (forall j :: j in jobs ==> SimJob(j, s.manifest)) ==>
                  forall k :: 0 <= k < |end.out| ==>
                    end.out[k].0 < |profiles| && AsExpected(end.out[k].1, profiles[end.out[k].0])))
  {
    hide SimInv, Fit, FitForEachOther, Start, Measure, Play, AllServed, Queued, AsExpected, SimJob, DefaultSetting,
      SmallNoise;
    var w, c := Start(manifests, jobs, 30.0, 120.0, startAt), CrewOf(manifests, profiles, s);
    StartInv(manifests, profiles, jobs, s, 30.0, 120.0, startAt);
    CrewSize(w, c);
    SchedulesNeverCrash(w, c, turns);
    if Play(w, c, turns).Running? && AllFinished(Play(w, c, turns).world) {
      var end := Play(w, c, turns).world;
      CompletionServesAll(end, c);
      ServedCounts(end, c.ids, jobs);
      if Brisk(o, startAt) && DefaultSetting(s) && (forall j :: j in jobs ==> SimJob(j, s.manifest)) {
        SwiftReports(manifests, profiles, jobs, s, 30.0, 120.0, startAt, turns, startAt);
      }
    }
  }

  ghost predicate LogOfAll(w: World, n: nat) {
    var audit := w.market.broker.audit;
    && BrokerInvariants.CountEvents(audit, LeaseIssued) == BrokerInvariants.CountEvents(audit, LeaseSubmitted) == n
    && BrokerInvariants.CountEvents(audit, LeaseFailed) == 0 && BrokerInvariants.CountEvents(audit, LeaseExpired) == 0
    && BrokerInvariants.CountEvents(audit, LeaseAbandoned) == 0
  }

  lemma {:induction false} LogCounted(r: SimulationResult, w: World)
    requires Counts(r.auditEventCounts, EventsOf(w.market.broker.audit)) && LogOfAll(w, r.jobsTotal)
    requires r.jobsTotal == r.submissions
    ensures NothingLost(r)
  {
    hide EventsOf, BrokerInvariants.CountEvents;
    forall e: Event ensures multiset(EventsOf(w.market.broker.audit))[e]
                         == BrokerInvariants.CountEvents(w.market.broker.audit, e) {
      EventsCounted(w.market.broker.audit, e);
    }
  }

  lemma {:induction false} ExpectedCounted(r: SimulationResult, profiles: seq<Profile>, out: seq<(nat, GroupDecision)>)
    requires forall k :: 0 <= k < |out| ==> out[k].0 < |profiles| && AsExpected(out[k].1, profiles[out[k].0])
    requires Counts(r.byProfileAction, ProfileActions(out, profiles))
    ensures OnlyExpected(r.byProfileAction)
  {
    hide Expected, ProfileActions;
    forall p, a | (p, a) in r.byProfileAction ensures a == Expected(p).1 {
      var k := ProfileActionFromResult(out, profiles, p, a);
    }
  }

  /**
   One simulation: the result counts a world in which jobs, leases, stored groups and results
   correspond one to one, whatever the scheduler, the clocks and the random draws did; and with
   the default budget, a run that is over before a lease can expire gives every profile its action.
   */
  method RunSimulation(manifests: seq<WorkerManifest>, profiles: seq<Profile>, jobs: seq<RolloutJob>, s: Setting,
                       startAt: real, o: Outside) returns (r: SimulationResult, ghost end: World)
    requires FitForEachOther(manifests, jobs) && |profiles| == |manifests| >= 1 && Fit(s) && Proper(o)
    ensures forall k :: 0 <= k < |end.out| ==> end.out[k].0 < |manifests|
    ensures end.market.store.Valid() && Reports(r, CrewOf(manifests, profiles, s), end)
    ensures AllServed(end, Ids(manifests)) && Queued(end.market.broker.jobs, jobs)
    ensures end.market.broker.leaseTtl == 30.0 && end.market.broker.heartbeatTtl == 120.0
    ensures r.jobsTotal == |jobs| && NothingLost(r)
    ensures Brisk(o, startAt) && DefaultSetting(s) && (forall j :: j in jobs ==> SimJob(j, s.manifest)) ==>
      OnlyExpected(r.byProfileAction)
  {
    hide SimInv, Fit, FitForEachOther, LocalWorkerBroker.Valid, LocalWorkerBroker.Model, InMemoryLiveStore.Valid,
      InMemoryLiveStore.Model, Start, Proper, Queued, Measure, Mirrors, Play, AsExpected, SimJob, DefaultSetting, Brisk,
      LogOfAll, NothingLost, OnlyExpected, Counts;
    ghost var start;
    var broker;
    broker, start := SetUp(manifests, profiles, jobs, s, startAt);
    var c := CrewOf(manifests, profiles, s);
    StartInv(manifests, profiles, jobs, s, 30.0, 120.0, startAt);
    StartLeases(manifests, profiles, jobs, s, startAt);
    ghost var turns;
    var phases, out;
    phases, out, turns := RunThreads(broker, c, o, start);
    end := Play(start, c, turns).world;
    MirroredPhases(broker, phases, out, end);
    Outcome(manifests, profiles, jobs, s, startAt, o, turns);
    SimulationLaws.PlayKeepsTtls(start, c, turns);
    SimulationLaws.StartLaw(manifests, jobs, 30.0, 120.0, startAt);
    ResultsInRange(end, c.ids);
    hide AllServed;
    r := Count(broker, phases, out, c, |jobs|, end);
    LogCounted(r, end);
    if Brisk(o, startAt) && DefaultSetting(s) && (forall j :: j in jobs ==> SimJob(j, s.manifest)) {
      ExpectedCounted(r, profiles, end.out);
    }
  }

  lemma ResultsInRange(w: World, ids: seq<string>)
    requires AllServed(w, ids)
    ensures forall k :: 0 <= k < |w.out| ==> w.out[k].0 < |ids|
  {
  }

  lemma EveryCounted(counts: map<GroupStatus, nat>)
    requires counts.Keys == {Pending, Accepted, Correctable, Quarantined, Rejected}
    ensures forall st: GroupStatus :: st in counts
  {
    forall st: GroupStatus ensures st in counts {
      InMemoryLiveStore.EveryStatus(st);
    }
  }

  lemma ServedCounts(w: World, ids: seq<string>, jobs: seq<RolloutJob>)
    requires AllServed(w, ids) && Queued(w.market.broker.jobs, jobs)
    ensures |w.out| == |jobs| == |w.market.broker.jobs.keys|
  {
  }

  lemma {:induction false} StartLeases(manifests: seq<WorkerManifest>, profiles: seq<Profile>, jobs: seq<RolloutJob>,
                                       s: Setting, now: real)
    requires FitForEachOther(manifests, jobs)
    ensures var w := Start(manifests, jobs, 30.0, 120.0, now);
      w.market.broker.leases == EmptyDict() && |w.phases| == |manifests| && w.out == [] && w.market.store == EmptyDict()
      && forall i :: 0 <= i < |w.phases| ==> w.phases[i].Arriving?
  {
    hide BrokerInvariants.Inv, CrewReady, JobsReady, FitForEachOther, Enlist, Enqueue;
    StartBroker(manifests, jobs, 30.0, 120.0, now);
  }
}
