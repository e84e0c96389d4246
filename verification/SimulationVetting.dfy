/** What a trainer may rely on when it fetches from the simulation's store, at any moment of any schedule. */
module SimulationVetting {
  import opened Wrappers
  import opened Dicts
  import opened Contracts
  import opened WorkerBroker
  import opened BrokerInvariants
  import opened Marketplace
  import opened WorkerLoop
  import opened Simulation
  import opened WorkerThreads
  import opened SimulationRuns
  import Histories
  import LiveStore
  import Opbc

  ghost predicate Vouched(m: Market, s: Setting)
    requires Opbc.IsExp(s.exp)
  {
    StoreVetted(m, s) && LeasesValid(m.broker)
  }

  /** A thread that fetches takes a step of the marketplace. */
  lemma {:induction false} FetchVouched(w: World, c: Crew, t: Turn)
    requires Sound(w.market) && Fit(c.setting) && Vouched(w.market, c.setting) && Playable(w, t)
    requires |c.ids| == |w.phases| && Fetch(w, c, t).Running?
    ensures Vouched(Fetch(w, c, t).world.market, c.setting)
  {
    hide StoreVetted, LeasesValid, WorkerBroker.AcquireLease;
    var op := AcquireLease(c.ids[t.worker], t.leaseId, t.assignmentId, t.now);
    assert Fetch(w, c, t).world.market == Step(w.market, op).0;
    StepVetted(w.market, op, c.setting);
    StepLeasesValid(w.market, op);
  }

  /** A thread that hands in submits as the worker loop does: on the lease the broker has on record. */
  lemma {:induction false} HandInVouched(w: World, c: Crew, t: Turn)
    requires Sound(w.market) && Fit(c.setting) && Vouched(w.market, c.setting) && Playable(w, t)
    requires |c.ids| == |c.profiles| == |w.phases| && w.phases[t.worker].Holding? && w.phases[t.worker].lease.Valid()
    requires HeldBack(w.market.broker.leases.at, w.phases, c.ids)
    requires HandIn(w, c, t, w.phases[t.worker].lease).Running?
    ensures Vouched(HandIn(w, c, t, w.phases[t.worker].lease).world.market, c.setting)
  {
    hide StoreVetted, LeasesValid, WorkerBroker.SubmitGroup, MakeGroup, Judge, Opbc.IsExp;
    var lease := w.phases[t.worker].lease;
    var group := MakeGroup(lease, c.profiles[t.worker], t.noise);
    var decision := Simulation.Verdict(lease, c.profiles[t.worker], t.noise, t.judgedAt, c.setting).value;
    var op := SubmitGroup(c.ids[t.worker], lease.leaseId, group, decision, t.now);
    assert HandIn(w, c, t, lease).world.market == Step(w.market, op).0;
    assert JudgedAs(group, w.market.broker.leases.at[lease.leaseId].lease, t.judgedAt, c.setting, decision);
    StepVetted(w.market, op, c.setting);
    StepLeasesValid(w.market, op);
  }

  lemma {:induction false} TurnVouched(w: World, c: Crew, t: Turn)
    requires SimInv(w, c) && Playable(w, t) && Fit(c.setting) && Vouched(w.market, c.setting)
    ensures GoodTurn(w, c, TakeTurn(w, c, t)) && Vouched(TakeTurn(w, c, t).world.market, c.setting)
  {
    hide SimInv, Fit, Fetch, HandIn, Vouched, Measure, Sound, HeldBack, Inv;
    TurnKeeps(w, c, t);
    SimParts(w, c);
    match w.phases[t.worker]
    case Ready => FetchVouched(w, c, t);
    case Holding(_) => HandInVouched(w, c, t);
    case _ =>
  }

  lemma {:induction false} ScheduleVouched(w: World, c: Crew, turns: seq<Turn>)
    requires SimInv(w, c) && Fit(c.setting) && Vouched(w.market, c.setting)
    requires |c.ids| == |c.profiles| == |w.phases| && Play(w, c, turns).Running?
    ensures Vouched(Play(w, c, turns).world.market, c.setting)
    decreases turns
  {
    hide SimInv, TakeTurn, Playable, Measure, LeasesHeldValid, Fit, Vouched;
    if turns == [] {
    } else {
      HeldAreValid(w, c);
      TurnVouched(w, c, turns[0]);
      var v := TakeTurn(w, c, turns[0]).world;
      HeldAreValid(v, c);
      ScheduleVouched(v, c, turns[1..]);
    }
  }

  lemma {:induction false} StartVouched(manifests: seq<WorkerManifest>, jobs: seq<RolloutJob>, s: Setting,
                                        leaseTtl: real, heartbeatTtl: real, now: real)
    requires FitForEachOther(manifests, jobs) && leaseTtl > 0.0 && Fit(s)
    ensures Vouched(Start(manifests, jobs, leaseTtl, heartbeatTtl, now).market, s)
  {
    hide Inv, CrewReady, JobsReady, FitForEachOther, Enlist, Enqueue, Fit;
    StartBroker(manifests, jobs, leaseTtl, heartbeatTtl, now);
  }

  /**
   At any moment of any schedule of the simulation a trainer that fetches gets only groups of the
   requested version that are clean against the lease they were submitted on and within the
   budget's hard limits, measured against the baseline of that very group.
   */
  lemma {:induction false} EveryFetchIsSafe(manifests: seq<WorkerManifest>, profiles: seq<Profile>,
                                            jobs: seq<RolloutJob>, s: Setting, leaseTtl: real, heartbeatTtl: real,
                                            now: real, turns: seq<Turn>, version: string, maxGroups: int,
                                            maxStaleness: Option<int>, precision: Option<string>)
    requires FitForEachOther(manifests, jobs) && |profiles| == |manifests| && leaseTtl > 0.0 && Fit(s)
    ensures var w, c := Start(manifests, jobs, leaseTtl, heartbeatTtl, now), CrewOf(manifests, profiles, s);
      && |c.ids| == |c.profiles| == |w.phases|
      && var r := Play(w, c, turns);
      && !r.Crashed?
      && (r.Running? ==>
            && r.world.market.store.Valid()
            && var q := FreshQuery(version, maxStaleness, precision);
            forall g :: g in LiveStore.Batch(r.world.market.store, q, maxGroups) ==>
              TrainerSafe(r.world.market, g, version, maxStaleness, precision, s))
  {
    hide SimInv, TakeTurn, Measure, Fit, FitForEachOther, Start, TrainerSafe, LiveStore.Batch, StoreVetted, LeasesValid;
    var w, c := Start(manifests, jobs, leaseTtl, heartbeatTtl, now), CrewOf(manifests, profiles, s);
    StartInv(manifests, profiles, jobs, s, leaseTtl, heartbeatTtl, now);
    StartVouched(manifests, jobs, s, leaseTtl, heartbeatTtl, now);
    CrewSize(w, c);
    SchedulesNeverCrash(w, c, turns);
    if Play(w, c, turns).Running? {
      ScheduleVouched(w, c, turns);
      FetchFromWorld(Play(w, c, turns).world, c, version, maxGroups, maxStaleness, precision);
    }
  }

  lemma {:induction false} FetchFromWorld(w: World, c: Crew, version: string, maxGroups: int, maxStaleness: Option<int>,
                                          precision: Option<string>)
    requires SimInv(w, c) && Fit(c.setting) && Vouched(w.market, c.setting)
    ensures w.market.store.Valid()
    ensures var q := FreshQuery(version, maxStaleness, precision);
      forall g :: g in LiveStore.Batch(w.market.store, q, maxGroups) ==>
        TrainerSafe(w.market, g, version, maxStaleness, precision, c.setting)
  {
    hide SimInv, StoreVetted, LeasesValid, TrainerSafe, LiveStore.Batch, Opbc.IsExp;
    SimParts(w, c);
    assert Run(w.market, []) == w.market;
    FreshFetchIsSafe(w.market, [], c.setting, version, maxGroups, maxStaleness, precision);
  }
}
