/**
 One turn of the worker loop (validate, score, submit) and what it guarantees to the trainer at
 the other end of the store.
 */
module WorkerLoop {
  import opened Wrappers
  import opened Dicts
  import opened Contracts
  import opened Weights
  import opened Opbc
  import opened BudgetTheorems
  import opened Validators
  import opened WorkerBroker
  import opened Marketplace
  import Histories
  import LiveStore
  import LiveStoreObjects

  /**
   Fixed for a whole run: the trainer's manifest and budget policy, the exponential function, and the
   trainer's own log-probabilities for the policy tokens of a group, which depend on the group alone.
   */
  datatype Setting = Setting(
    manifest: PolicyManifest,
    policy: BudgetPolicy,
    exp: real -> real,
    trainOf: SampleGroup -> seq<real>)

  /** The decision of one turn: a rejection by the validators, or else the verdict on the group's budget. */
  function Judge(group: SampleGroup, lease: RolloutLease, now: real, s: Setting): Result<GroupDecision>
    requires group.Valid() && IsExp(s.exp)
  {
    match Validate(group, lease, s.manifest, now)
    case Some(rejected) => Ok(rejected)
    case None =>
      (match Report(group, s.trainOf(group), s.policy, None, s.exp)
       case Raised(e) => Raised(e)
       case Ok(report) => Ok(Decision(report, s.policy)))
  }

  ghost predicate JudgedAs(group: SampleGroup, lease: RolloutLease, now: real, s: Setting, decision: GroupDecision)
    requires group.Valid() && IsExp(s.exp)
  {
    Judge(group, lease, now, s) == Ok(decision)
  }

  /** Groups enter the store only as the worker loop submits them: judged against the lease they are submitted on. */
  ghost predicate ByWorkerLoop(m: Market, op: Op, s: Setting)
    requires IsExp(s.exp)
  {
    && !op.Deposit?
    && (op.SubmitGroup? && op.leaseId in m.broker.leases.at ==>
          && op.group.Valid()
          && exists now :: JudgedAs(op.group, m.broker.leases.at[op.leaseId].lease, now, s, op.decision))
  }

  ghost predicate AllByWorkerLoop(m: Market, ops: seq<Op>, s: Setting)
    requires Sound(m) && IsExp(s.exp)
  {
    ops != [] ==>
      && AllByWorkerLoop(m, ops[..|ops| - 1], s)
      && ByWorkerLoop(Run(m, ops[..|ops| - 1]), ops[|ops| - 1], s)
      && !ops[|ops| - 1].Transition?
  }

  // ----- a rejection by the validators is final

  /**
   A group that the validators reject is stored as rejected and is in no batch served afterwards,
   whatever operations follow, transitions included.
   */
  lemma {:induction false} RejectedByValidators(m: Market, submit: Op, now: real, s: Setting, ops: seq<Op>,
                                                consume: Op)
    requires Sound(m) && IsExp(s.exp) && submit.SubmitGroup? && consume.Consume? && submit.group.Valid()
    requires submit.leaseId in m.broker.leases.at
    requires var lease := m.broker.leases.at[submit.leaseId].lease;
      Validate(submit.group, lease, s.manifest, now).Some? && JudgedAs(submit.group, lease, now, s, submit.decision)
    requires Step(m, submit).1.Done? && Admissible(Step(m, submit).0, ops)
    ensures submit.group.groupId in Step(m, submit).0.store.at
    ensures var reply := Step(Run(Step(m, submit).0, ops), consume).1;
      reply.Served? && submit.group.groupId !in reply.groupIds
  {
    hide IsExp, Report, FirstViolation;
    var after := Step(m, submit).0;
    assert after.store.at[submit.group.groupId].state.Rejected?;
    Histories.RejectedIsNeverServed(after, submit.group.groupId, ops, consume);
  }

  // ----- what is served was vetted

  /** The state is the status that the budget gives the group, measured against the trainer's own log-probabilities. */
  ghost predicate Scored(group: SampleGroup, state: GroupStatus, s: Setting)
    requires IsExp(s.exp)
  {
    && group.Valid()
    && Report(group, s.trainOf(group), s.policy, None, s.exp).Ok?
    && Decision(Report(group, s.trainOf(group), s.policy, None, s.exp).value, s.policy).status == state
  }

  ghost predicate Vetted(group: SampleGroup, state: GroupStatus, lease: RolloutLease, s: Setting)
    requires IsExp(s.exp)
  {
    state.Rejected? || (ContractClean(group, lease, s.manifest) && Scored(group, state, s))
  }

  ghost predicate HandedInOn(b: Broker, leaseId: string, groupId: string) {
    leaseId in b.leases.at && b.leases.at[leaseId].state.Submitted?
    && b.leases.at[leaseId].submittedGroupId == Some(groupId)
  }

  /** Every stored group came in on a submitted lease, and its state is what the worker loop made of it. */
  ghost predicate StoreVetted(m: Market, s: Setting)
    requires IsExp(s.exp)
  {
    forall g :: g in m.store.at ==>
      exists id ::
        HandedInOn(m.broker, id, g) && Vetted(m.store.at[g].group, m.store.at[g].state, m.broker.leases.at[id].lease, s)
  }

  lemma {:induction false} JudgedIsVetted(group: SampleGroup, lease: RolloutLease, now: real, s: Setting,
                                          decision: GroupDecision)
    requires group.Valid() && IsExp(s.exp) && lease.Valid() && JudgedAs(group, lease, now, s, decision)
    ensures Vetted(group, decision.status, lease, s)
  {
    hide IsExp, Report, Decision, FirstViolation, ContractClean;
    CleanIff(group, lease, s.manifest, now);
  }

  ghost predicate LeasesValid(b: Broker) {
    forall id :: id in b.leases.at ==> b.leases.at[id].lease.Valid()
  }

  lemma {:induction false} StepLeasesValid(m: Market, op: Op)
    requires Sound(m) && FreshId(m, op) && LeasesValid(m.broker)
    ensures LeasesValid(Step(m, op).0.broker)
  {
    Histories.StepLater(m, op);
    var c := Step(m, op).0.broker;
    hide ReapEach, AbandonWorkers, AbandonedBy, LapsedIds, LiveStore.Serve, LiveStore.Batch, NextJob;
    forall id | id in c.leases.at ensures c.leases.at[id].lease.Valid() {
      if id in m.broker.leases.at {
        assert c.leases.at[id].lease == m.broker.leases.at[id].lease;
      }
    }
  }

  /** Nothing but a submission adds a group, and only a transition could change a state. */
  lemma {:induction false} StepStates(m: Market, op: Op)
    requires Sound(m) && FreshId(m, op) && !op.Deposit? && !op.Transition?
    ensures var t := Step(m, op).0.store;
      forall g :: g in t.at ==>
        && (g in m.store.at ==> t.at[g].group == m.store.at[g].group && t.at[g].state == m.store.at[g].state)
        && (g !in m.store.at ==>
              && op.SubmitGroup? && Step(m, op).1.Done? && g == op.group.groupId
              && t.at[g].group == op.group && t.at[g].state == op.decision.status)
  {
    hide ReapEach, AbandonWorkers, AbandonedBy, LapsedIds, LiveStore.Batch, NextJob;
  }

  lemma {:induction false} SubmissionClosesItsLease(m: Market, op: Op)
    requires Sound(m) && op.SubmitGroup? && Step(m, op).1.Done?
    ensures op.leaseId in m.broker.leases.at && HandedInOn(Step(m, op).0.broker, op.leaseId, op.group.groupId)
    ensures Step(m, op).0.broker.leases.at[op.leaseId].lease == m.broker.leases.at[op.leaseId].lease
  {
  }

  lemma {:induction false} StepVetted(m: Market, op: Op, s: Setting)
    requires Sound(m) && FreshId(m, op) && IsExp(s.exp) && StoreVetted(m, s) && LeasesValid(m.broker)
    requires ByWorkerLoop(m, op, s) && !op.Transition?
    ensures StoreVetted(Step(m, op).0, s)
  {
    hide IsExp, Step, Sound, Vetted, JudgedAs;
    Histories.StepLater(m, op);
    StepStates(m, op);
    var n := Step(m, op).0;
    forall g | g in n.store.at
      ensures exists id ::
        HandedInOn(n.broker, id, g) && Vetted(n.store.at[g].group, n.store.at[g].state, n.broker.leases.at[id].lease, s)
    {
      if g in m.store.at {
        var id :| HandedInOn(m.broker, id, g)
          && Vetted(m.store.at[g].group, m.store.at[g].state, m.broker.leases.at[id].lease, s);
        assert HandedInOn(n.broker, id, g);
      } else {
        SubmissionClosesItsLease(m, op);
        var lease := m.broker.leases.at[op.leaseId].lease;
        var now :| JudgedAs(op.group, lease, now, s, op.decision);
        JudgedIsVetted(op.group, lease, now, s, op.decision);
        assert HandedInOn(n.broker, op.leaseId, g);
      }
    }
  }

  lemma {:induction false} RunVetted(m: Market, ops: seq<Op>, s: Setting)
    requires Sound(m) && IsExp(s.exp) && StoreVetted(m, s) && LeasesValid(m.broker)
    requires Admissible(m, ops) && AllByWorkerLoop(m, ops, s)
    ensures StoreVetted(Run(m, ops), s) && LeasesValid(Run(m, ops).broker)
  {
    hide IsExp, Step, Sound, StoreVetted, LeasesValid, ByWorkerLoop;
    if ops == [] {
    } else {
      var before := Run(m, ops[..|ops| - 1]);
      RunVetted(m, ops[..|ops| - 1], s);
      StepVetted(before, ops[|ops| - 1], s);
      StepLeasesValid(before, ops[|ops| - 1]);
    }
  }

  /** What a trainer asks for when it fetches groups of the fresh tier. */
  function FreshQuery(version: string, maxStaleness: Option<int>, precision: Option<string>): LiveStore.Query {
    LiveStoreObjects.TrainerClient.FetchQuery(version, maxStaleness, precision, LiveStoreObjects.Fresh)
  }

  /** What a trainer may rely on for one group of a fresh batch. */
  ghost predicate TrainerSafe(m: Market, groupId: string, version: string, maxStaleness: Option<int>,
                              precision: Option<string>, s: Setting)
    requires IsExp(s.exp)
  {
    && groupId in m.store.at
    && var group := m.store.at[groupId].group;
    && group.policyVersion == version
    && (maxStaleness.Some? ==> group.policyLagSteps <= maxStaleness.value)
    && (precision.Some? ==> group.precisionClass == precision.value)
    && (exists id ::
          HandedInOn(m.broker, id, groupId) && ContractClean(group, m.broker.leases.at[id].lease, s.manifest))
    && WithinLimits(group, s)
  }

  /**
   No token of the group is further from the trainer's own log-probabilities than the veto threshold,
   the weights are even enough, and the group is not too old.
   */
  ghost predicate WithinLimits(group: SampleGroup, s: Setting)
    requires IsExp(s.exp)
  {
    && group.Valid()
    && Report(group, s.trainOf(group), s.policy, None, s.exp).Ok?
    && var r := Report(group, s.trainOf(group), s.policy, None, s.exp).value;
    && (forall x :: x in LogRatios(Flatten(group.trajectories), s.trainOf(group)) ==>
          Abs(x) <= s.policy.vetoAbsLogRatio)
    && r.vetoFraction == 0.0
    && r.effectiveSampleSize >= s.policy.minEss
    && group.policyLagSteps <= s.policy.maxPolicyLagSteps
  }

  lemma {:induction false} ScoredWithinLimits(group: SampleGroup, state: GroupStatus, s: Setting)
    requires IsExp(s.exp) && Scored(group, state, s) && (state.Accepted? || state.Correctable?)
    ensures WithinLimits(group, s)
  {
    hide IsExp, Report, Decision, Flatten, LogRatios;
    var train := s.trainOf(group);
    ReportIsMetrics(group, train, s.policy, None, s.exp);
    var r := Report(group, train, s.policy, None, s.exp).value;
    ReportEchoes(group, train, s.policy, None, s.exp);
    FractionsCountTokens(group, train, s.policy, None, s.exp);
    DecisionTable(r, s.policy);
  }

  /**
   End to end: when every group enters through the worker loop and no state is changed by hand,
   each group of a fresh fetch has the requested version, is contract-clean against the submitted
   lease it came in on, and is within the budget's hard limits against the trainer's own log-probabilities.
   */
  lemma {:induction false} FreshFetchIsSafe(m: Market, ops: seq<Op>, s: Setting, version: string, maxGroups: int,
                                            maxStaleness: Option<int>, precision: Option<string>)
    requires Sound(m) && IsExp(s.exp) && StoreVetted(m, s) && LeasesValid(m.broker)
    requires Admissible(m, ops) && AllByWorkerLoop(m, ops, s)
    ensures var end := Run(m, ops);
      var q := FreshQuery(version, maxStaleness, precision);
      forall g :: g in LiveStore.Batch(end.store, q, maxGroups) ==>
        TrainerSafe(end, g, version, maxStaleness, precision, s)
  {
    hide IsExp, Step, Run, Admissible, AllByWorkerLoop, TrainerSafe, LiveStore.Batch;
    RunVetted(m, ops, s);
    var end := Run(m, ops);
    var q := FreshQuery(version, maxStaleness, precision);
    LiveStore.BatchIsFirstAdmitted(end.store, q, maxGroups);
    forall g | g in LiveStore.Batch(end.store, q, maxGroups)
      ensures TrainerSafe(end, g, version, maxStaleness, precision, s)
    {
      AdmittedIsSafe(end, g, version, maxStaleness, precision, s);
    }
  }

  lemma {:induction false} AdmittedIsSafe(m: Market, g: string, version: string, maxStaleness: Option<int>,
                                          precision: Option<string>, s: Setting)
    requires IsExp(s.exp) && StoreVetted(m, s) && g in m.store.at
    requires LiveStore.Admits(FreshQuery(version, maxStaleness, precision), m.store.at[g])
    ensures TrainerSafe(m, g, version, maxStaleness, precision, s)
  {
    hide IsExp, Scored, WithinLimits, ContractClean;
    var record := m.store.at[g];
    var id :| HandedInOn(m.broker, id, g) && Vetted(record.group, record.state, m.broker.leases.at[id].lease, s);
    ScoredWithinLimits(record.group, record.state, s);
  }

  /** An empty marketplace is vetted: the theorem applies to every run from the start. */
  lemma EmptyIsVetted(leaseTtl: real, heartbeatTtl: real, s: Setting)
    requires IsExp(s.exp)
    ensures StoreVetted(EmptyMarket(leaseTtl, heartbeatTtl), s)
    ensures LeasesValid(EmptyMarket(leaseTtl, heartbeatTtl).broker)
  {
  }
}
