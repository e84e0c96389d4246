/**
 Runs of the marketplace: any sequence of broker, store and trainer operations, each one atomic.
 A theorem about `Run(m, ops)` for every `ops` is a theorem about every interleaving of clients.
 */
module Marketplace {
  import opened Wrappers
  import opened Dicts
  import opened Contracts
  import opened WorkerBroker
  import opened BrokerInvariants
  import LiveStore

  datatype Market = Market(broker: Broker, store: LiveStore.Store)

  datatype Op =
    | RegisterWorker(manifest: WorkerManifest, now: real)
    | Heartbeat(beat: WorkerHeartbeat, now: real)
    | SubmitJob(job: RolloutJob, now: real)
    | AcquireLease(workerId: string, leaseId: string, assignmentId: string, now: real)
    | SubmitGroup(workerId: string, leaseId: string, group: SampleGroup, decision: GroupDecision, now: real)
    | ReportFailure(workerId: string, leaseId: string, reason: string, detail: Option<string>, now: real)
    | ReapExpired(now: real)
    | AbandonStaleWorkers(now: real)
    | Deposit(group: SampleGroup, decision: GroupDecision)
    | Transition(groupId: string, newState: GroupStatus, rejection: Option<RejectionReason>)
    | Consume(query: LiveStore.Query, maxGroups: int)

  datatype Reply =
    | Done
    | Refused(error: Error)
    | Leased(lease: Option<RolloutLease>)
    | Reaped(leaseIds: seq<string>)
    | Buried(abandoned: seq<(string, seq<string>)>)
    | Served(groupIds: seq<string>)

  ghost predicate Sound(m: Market) {
    m.broker.leases.Valid() && m.store.Valid()
  }

  function WithBroker(m: Market, r: Result<Broker>): (Market, Reply) {
    match r
    case Ok(b) => (m.(broker := b), Done)
    case Raised(e) => (m, Refused(e))
  }

  function WithStore(m: Market, r: Result<LiveStore.Store>): (Market, Reply) {
    match r
    case Ok(s) => (m.(store := s), Done)
    case Raised(e) => (m, Refused(e))
  }

  /** `Consume` stands for both `get_batch` and the trainer's `fetch`; `Deposit` for a direct store submission. */
  function Step(m: Market, op: Op): (r: (Market, Reply))
    requires Sound(m)
    ensures Sound(r.0)
  {
    match op
    case RegisterWorker(manifest, now) => (m.(broker := WorkerBroker.RegisterWorker(m.broker, manifest, now)), Done)
    case Heartbeat(beat, now) => WithBroker(m, WorkerBroker.Heartbeat(m.broker, beat, now))
    case SubmitJob(job, now) => (m.(broker := WorkerBroker.SubmitJob(m.broker, job, now)), Done)
    case AcquireLease(w, l, a, now) =>
      (match WorkerBroker.AcquireLease(m.broker, w, l, a, now)
       case Ok((b, lease)) => (m.(broker := b), Leased(lease))
       case Raised(e) => (m, Refused(e)))
    case SubmitGroup(w, l, group, decision, now) =>
      (match WorkerBroker.SubmitGroup(m.broker, m.store, w, l, group, decision, now)
       case Ok((b, s)) => (Market(b, s), Done)
       case Raised(e) => (m, Refused(e)))
    case ReportFailure(w, l, reason, detail, now) =>
      WithBroker(m, WorkerBroker.ReportFailure(m.broker, w, l, reason, detail, now))
    case ReapExpired(now) =>
      var (b, ids) := WorkerBroker.ReapExpired(m.broker, now);
      (m.(broker := b), Reaped(ids))
    case AbandonStaleWorkers(now) =>
      var (b, gone) := WorkerBroker.AbandonStaleWorkers(m.broker, now);
      (m.(broker := b), Buried(gone))
    case Deposit(group, decision) => WithStore(m, LiveStore.Submit(m.store, group, decision))
    case Transition(id, newState, reason) => WithStore(m, LiveStore.Transition(m.store, id, newState, reason))
    case Consume(q, maxGroups) =>
      (m.(store := LiveStore.Serve(m.store, q, maxGroups)), Served(LiveStore.Batch(m.store, q, maxGroups)))
  }

  function Run(m: Market, ops: seq<Op>): (r: Market)
    requires Sound(m)
    ensures Sound(r)
  {
    if ops == [] then m else Step(Run(m, ops[..|ops| - 1]), ops[|ops| - 1]).0
  }

  /** A lease id is a newly drawn uuid: no lease carries it yet. */
  ghost predicate FreshId(m: Market, op: Op) {
    op.AcquireLease? ==> op.leaseId !in m.broker.leases.at
  }

  ghost predicate Admissible(m: Market, ops: seq<Op>)
    requires Sound(m)
  {
    ops != [] ==>
      Admissible(m, ops[..|ops| - 1]) && FreshId(Run(m, ops[..|ops| - 1]), ops[|ops| - 1])
  }

  function EmptyMarket(leaseTtl: real, heartbeatTtl: real): Market {
    Market(EmptyBroker(leaseTtl, heartbeatTtl), EmptyDict())
  }

  // ----- the broker invariant over every run

  lemma {:induction false} AcquireLeaseInv(b: Broker, workerId: string, leaseId: string, assignmentId: string,
                                           now: real)
    requires Inv(b) && leaseId !in b.leases.at
    requires WorkerBroker.AcquireLease(b, workerId, leaseId, assignmentId, now).Ok?
    ensures Inv(WorkerBroker.AcquireLease(b, workerId, leaseId, assignmentId, now).value.0)
  {
    hide Stamped, DeadHoldNothing, LeaseDiscipline, Accounts, AuditFaithful, Rebuild, Observe;
    NextJobIsFirstEligible(b, b.jobs.keys, b.workers.at[workerId]);
    var (c, lease) := WorkerBroker.AcquireLease(b, workerId, leaseId, assignmentId, now).value;
    if lease.Some? {
      IssueLeaseInv(b, lease.value, b.jobs.at[lease.value.jobId], now);
    }
  }

  lemma {:induction false} SubmitGroupInv(m: Market, workerId: string, leaseId: string, group: SampleGroup,
                                          decision: GroupDecision, now: real)
    requires Inv(m.broker)
    requires WorkerBroker.SubmitGroup(m.broker, m.store, workerId, leaseId, group, decision, now).Ok?
    ensures Inv(WorkerBroker.SubmitGroup(m.broker, m.store, workerId, leaseId, group, decision, now).value.0)
  {
    hide WellFormed, Stamped, DeadHoldNothing, LeaseDiscipline, Accounts, AuditFaithful, Rebuild, Observe;
    var row := m.broker.leases.at[leaseId];
    var keys := m.broker.idempotencyKeys[row.lease.idempotencyKey := group.groupId];
    BindKeyInv(m.broker, keys);
    CloseInv(m.broker.(idempotencyKeys := keys), leaseId, Submitted, row.failureReason, Some(group.groupId),
             GroupRef(group.groupId), now);
  }

  lemma {:induction false} StepInv(m: Market, op: Op)
    requires Sound(m) && Inv(m.broker) && FreshId(m, op)
    ensures Inv(Step(m, op).0.broker)
  {
    hide Inv, Close, IssueLease, ReapEach, AbandonWorkers, AbandonedBy, LapsedIds;
    hide LiveStore.Serve, LiveStore.Batch, LiveStore.Submit, LiveStore.Transition;
    match op
    case RegisterWorker(manifest, now) => RegisterWorkerInv(m.broker, manifest, now);
    case Heartbeat(beat, now) =>
      if WorkerBroker.Heartbeat(m.broker, beat, now).Ok? { HeartbeatInv(m.broker, beat, now); }
    case SubmitJob(job, now) => SubmitJobInv(m.broker, job, now);
    case AcquireLease(w, l, a, now) =>
      if WorkerBroker.AcquireLease(m.broker, w, l, a, now).Ok? { AcquireLeaseInv(m.broker, w, l, a, now); }
    case SubmitGroup(w, l, group, decision, now) =>
      if WorkerBroker.SubmitGroup(m.broker, m.store, w, l, group, decision, now).Ok? {
        SubmitGroupInv(m, w, l, group, decision, now);
      }
    case ReportFailure(w, l, reason, detail, now) =>
      if WorkerBroker.ReportFailure(m.broker, w, l, reason, detail, now).Ok? {
        ReportFailureInv(m.broker, w, l, reason, detail, now);
      }
    case ReapExpired(now) => ReapEachInv(m.broker, m.broker.leases.keys, now);
    case AbandonStaleWorkers(now) => WorkersListed(m.broker); AbandonWorkersInv(m.broker, m.broker.workers.keys, now);
    case Deposit(_, _) =>
    case Transition(_, _, _) =>
    case Consume(_, _) =>
  }

  lemma {:induction false} WorkersListed(b: Broker)
    requires Inv(b)
    ensures forall id :: id in b.workers.keys ==> id in b.workers.at
  {
  }

  /** Every reachable broker keeps the lease discipline, balances its books and can be rebuilt from its audit log. */
  lemma {:induction false} RunInv(m: Market, ops: seq<Op>)
    requires Sound(m) && Inv(m.broker) && Admissible(m, ops)
    ensures Inv(Run(m, ops).broker)
  {
    hide Inv, Step, Sound;
    if ops == [] {
    } else {
      RunInv(m, ops[..|ops| - 1]);
      StepInv(Run(m, ops[..|ops| - 1]), ops[|ops| - 1]);
    }
  }
}
