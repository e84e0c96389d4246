/** What stays true from one state of the marketplace to every later one. */
module Histories {
  import opened Wrappers
  import opened Dicts
  import opened Contracts
  import opened WorkerBroker
  import opened BrokerInvariants
  import opened Marketplace
  import LiveStore

  // ----- how a state may change

  /** Leases are never forgotten or reassigned, and one that is closed never changes again. */
  ghost predicate RowsLater(rows: map<string, LeaseRow>, later: map<string, LeaseRow>) {
    forall id :: id in rows ==>
      && id in later
      && later[id].lease == rows[id].lease && later[id].job == rows[id].job
      && (!rows[id].state.Issued? ==> later[id] == rows[id])
  }

  ghost predicate KeysLater(keys: map<string, string>, later: map<string, string>) {
    forall k :: k in keys ==> k in later && later[k] == keys[k]
  }

  ghost predicate BrokerLater(b: Broker, c: Broker) {
    RowsLater(b.leases.at, c.leases.at) && KeysLater(b.idempotencyKeys, c.idempotencyKeys) && b.audit <= c.audit
  }

  /** Groups are never dropped or altered; a rejected one stays rejected and is never handed out. */
  ghost predicate StoreLater(s: LiveStore.Store, t: LiveStore.Store) {
    forall g :: g in s.at ==>
      && g in t.at && t.at[g].group == s.at[g].group
      && (s.at[g].state.Rejected? ==> t.at[g].state.Rejected? && t.at[g].servedCount == s.at[g].servedCount)
  }

  ghost predicate Later(m: Market, n: Market) {
    BrokerLater(m.broker, n.broker) && StoreLater(m.store, n.store)
  }

  lemma {:induction false} CloseLater(b: Broker, leaseId: string, state: LeaseState, reason: Option<string>,
                                      group: Option<string>, detail: Detail, now: real)
    requires leaseId in b.leases.at && b.leases.at[leaseId].state.Issued? && !state.Issued?
    ensures BrokerLater(b, Close(b, leaseId, state, reason, group, detail, now))
  {
  }

  lemma {:induction false} ReapEachLater(b: Broker, ids: seq<string>, now: real)
    requires forall id :: id in ids ==> id in b.leases.at
    ensures BrokerLater(b, ReapEach(b, ids, now))
  {
    if ids == [] {
    } else {
      var n := |ids| - 1;
      ReapEachLater(b, ids[..n], now);
      var c := ReapEach(b, ids[..n], now);
      var row := c.leases.at[ids[n]];
      if Lapsed(row, now) {
        CloseLater(c, ids[n], Expired, row.failureReason, row.submittedGroupId, NoDetail, now);
      }
    }
  }

  lemma {:induction false} AbandonEachLater(b: Broker, ids: seq<string>, workerId: string, age: real, now: real)
    requires forall id :: id in ids ==> id in b.leases.at
    ensures BrokerLater(b, AbandonEach(b, ids, workerId, age, now))
  {
    if ids == [] {
    } else {
      var n := |ids| - 1;
      AbandonEachLater(b, ids[..n], workerId, age, now);
      var c := AbandonEach(b, ids[..n], workerId, age, now);
      var row := c.leases.at[ids[n]];
      if HeldBy(row, workerId) {
        CloseLater(c, ids[n], Abandoned, Some("worker_dead"), row.submittedGroupId, HeartbeatAge(age), now);
      }
    }
  }

  lemma {:induction false} AbandonWorkerLater(b: Broker, workerId: string, now: real)
    requires b.leases.Valid()
    ensures BrokerLater(b, AbandonWorker(b, workerId, now))
  {
    hide AbandonEach;
    if GoneSilent(b, workerId, now) {
      AbandonEachLater(b, b.leases.keys, workerId, now - b.heartbeats[workerId].lastSeenAt, now);
    }
  }

  lemma {:induction false} AbandonWorkersLater(b: Broker, ids: seq<string>, now: real)
    requires b.leases.Valid()
    ensures BrokerLater(b, AbandonWorkers(b, ids, now))
  {
    hide AbandonWorker;
    if ids == [] {
    } else {
      var n := |ids| - 1;
      AbandonWorkersLater(b, ids[..n], now);
      AbandonWorkerLater(AbandonWorkers(b, ids[..n], now), ids[n], now);
    }
  }

  lemma {:induction false} AcquireLeaseLater(b: Broker, workerId: string, leaseId: string, assignmentId: string,
                                             now: real)
    requires leaseId !in b.leases.at
    requires WorkerBroker.AcquireLease(b, workerId, leaseId, assignmentId, now).Ok?
    ensures BrokerLater(b, WorkerBroker.AcquireLease(b, workerId, leaseId, assignmentId, now).value.0)
  {
  }

  lemma {:induction false} SubmitGroupLater(m: Market, workerId: string, leaseId: string, group: SampleGroup,
                                            decision: GroupDecision, now: real)
    requires WorkerBroker.SubmitGroup(m.broker, m.store, workerId, leaseId, group, decision, now).Ok?
    ensures var (b, s) := WorkerBroker.SubmitGroup(m.broker, m.store, workerId, leaseId, group, decision, now).value;
      Later(m, Market(b, s))
  {
  }

  lemma {:induction false} ServeLater(s: LiveStore.Store, q: LiveStore.Query, maxGroups: int)
    requires s.Valid()
    ensures StoreLater(s, LiveStore.Serve(s, q, maxGroups))
  {
    LiveStore.BatchIsFirstAdmitted(s, q, maxGroups);
  }

  lemma SameLeasesLater(b: Broker, c: Broker)
    requires c.leases == b.leases && c.idempotencyKeys == b.idempotencyKeys && b.audit <= c.audit
    ensures BrokerLater(b, c)
  {
  }

  lemma SameStoreLater(s: LiveStore.Store)
    ensures StoreLater(s, s)
  {
  }

  lemma {:induction false} StepLater(m: Market, op: Op)
    requires Sound(m) && FreshId(m, op)
    ensures Later(m, Step(m, op).0)
  {
    hide ReapEach, AbandonWorkers, AbandonedBy, LapsedIds, LiveStore.Serve, LiveStore.Batch, Close, BrokerLater,
      StoreLater;
    hide WorkerBroker.AcquireLease, WorkerBroker.SubmitGroup;
    SameStoreLater(m.store);
    SameLeasesLater(m.broker, m.broker);
    match op
    case AcquireLease(w, l, a, now) =>
      if WorkerBroker.AcquireLease(m.broker, w, l, a, now).Ok? { AcquireLeaseLater(m.broker, w, l, a, now); }
    case SubmitGroup(w, l, group, decision, now) =>
      if WorkerBroker.SubmitGroup(m.broker, m.store, w, l, group, decision, now).Ok? {
        SubmitGroupLater(m, w, l, group, decision, now);
      }
    case ReportFailure(w, l, reason, detail, now) =>
      ReportFailureLater(m.broker, w, l, reason, detail, now);
    case ReapExpired(now) => ReapEachLater(m.broker, m.broker.leases.keys, now);
    case AbandonStaleWorkers(now) => AbandonWorkersLater(m.broker, m.broker.workers.keys, now);
    case Consume(q, maxGroups) => ServeLater(m.store, q, maxGroups);
    case Deposit(group, decision) => SubmitLater(m.store, group, decision);
    case Transition(id, newState, reason) => TransitionLater(m.store, id, newState, reason);
    case RegisterWorker(_, _) => SameLeasesLater(m.broker, Step(m, op).0.broker);
    case Heartbeat(_, _) => SameLeasesLater(m.broker, Step(m, op).0.broker);
    case SubmitJob(_, _) => SameLeasesLater(m.broker, Step(m, op).0.broker);
  }

  lemma {:induction false} ReportFailureLater(b: Broker, workerId: string, leaseId: string, reason: string,
                                              detail: Option<string>, now: real)
    ensures var r := WorkerBroker.ReportFailure(b, workerId, leaseId, reason, detail, now);
      r.Ok? ==> BrokerLater(b, r.value)
  {
  }

  lemma {:induction false} SubmitLater(s: LiveStore.Store, group: SampleGroup, decision: GroupDecision)
    ensures var r := LiveStore.Submit(s, group, decision); r.Ok? ==> StoreLater(s, r.value)
  {
  }

  lemma {:induction false} TransitionLater(s: LiveStore.Store, id: string, newState: GroupStatus,
                                           reason: Option<RejectionReason>)
    ensures var r := LiveStore.Transition(s, id, newState, reason); r.Ok? ==> StoreLater(s, r.value)
  {
  }

  /** The audit log only grows, closed leases and bound keys are final, rejection is final. */
  lemma {:induction false} RunLater(m: Market, ops: seq<Op>)
    requires Sound(m) && Admissible(m, ops)
    ensures Later(m, Run(m, ops))
  {
    hide Step, Sound;
    if ops == [] {
    } else {
      RunLater(m, ops[..|ops| - 1]);
      StepLater(Run(m, ops[..|ops| - 1]), ops[|ops| - 1]);
    }
  }

  // ----- rejection reasons

  /** A stored group has a rejection reason exactly when it is rejected. */
  ghost predicate ReasonsMatch(s: LiveStore.Store) {
    forall g :: g in s.at ==> (s.at[g].state.Rejected? <==> s.at[g].rejectionReason.Some?)
  }

  /** Decisions pass their own validator before they reach the store. */
  ghost predicate DecisionsValid(ops: seq<Op>) {
    forall i :: 0 <= i < |ops| ==> (ops[i].SubmitGroup? || ops[i].Deposit? ==> ops[i].decision.Valid())
  }

  lemma {:induction false} StepReasons(m: Market, op: Op)
    requires Sound(m) && ReasonsMatch(m.store) && DecisionsValid([op])
    ensures ReasonsMatch(Step(m, op).0.store)
  {
    hide ReapEach, AbandonWorkers, AbandonedBy, LapsedIds, LiveStore.Batch, WorkerBroker.AcquireLease, Close;
    assert op.SubmitGroup? || op.Deposit? ==> [op][0].decision.Valid();
  }

  /** In every run the store keeps the rule of its records, whatever transitions are attempted. */
  lemma {:induction false} RunReasons(m: Market, ops: seq<Op>)
    requires Sound(m) && ReasonsMatch(m.store) && DecisionsValid(ops)
    ensures ReasonsMatch(Run(m, ops).store)
  {
    hide Step, Sound, ReasonsMatch;
    if ops == [] {
    } else {
      RunReasons(m, ops[..|ops| - 1]);
      StepReasons(Run(m, ops[..|ops| - 1]), ops[|ops| - 1]);
    }
  }

  // ----- consequences

  /** An idempotency key that is bound to a stored group admits no submission any more. */
  lemma {:induction false} BoundKeyRefuses(m: Market, workerId: string, leaseId: string, group: SampleGroup,
                                           decision: GroupDecision, now: real)
    requires leaseId in m.broker.leases.at
    requires m.broker.leases.at[leaseId].lease.idempotencyKey in m.broker.idempotencyKeys
    requires m.broker.idempotencyKeys[m.broker.leases.at[leaseId].lease.idempotencyKey] in m.store.at
    ensures WorkerBroker.SubmitGroup(m.broker, m.store, workerId, leaseId, group, decision, now).Raised?
  {
  }

  /**
   Once a submission under a key has succeeded, none under that key succeeds in any later state,
   from whatever worker, lease or group.
   */
  lemma {:induction false} KeyIsUsedOnce(m: Market, first: Op, ops: seq<Op>, second: Op)
    requires Sound(m) && first.SubmitGroup? && second.SubmitGroup?
    requires Step(m, first).1.Done?
    requires Admissible(Step(m, first).0, ops)
    requires var n := Run(Step(m, first).0, ops);
      second.leaseId in n.broker.leases.at &&
      n.broker.leases.at[second.leaseId].lease.idempotencyKey == m.broker.leases.at[first.leaseId].lease.idempotencyKey
    ensures Step(Run(Step(m, first).0, ops), second).1.Refused?
  {
    var after := Step(m, first).0;
    var key := m.broker.leases.at[first.leaseId].lease.idempotencyKey;
    assert after.broker.idempotencyKeys[key] == first.group.groupId && first.group.groupId in after.store.at;
    RunLater(after, ops);
    BoundKeyRefuses(Run(after, ops), second.workerId, second.leaseId, second.group, second.decision, second.now);
  }

  /**
   A worker that is dead in some state can, in any later state, submit only on a lease issued
   after that state: the leases it had were all closed when it was declared dead.
   */
  lemma {:induction false} DeadWorkerNeedsNewLease(m: Market, ops: seq<Op>, submit: Op)
    requires Sound(m) && Inv(m.broker) && Admissible(m, ops)
    requires submit.SubmitGroup? && submit.workerId in m.broker.deadWorkers
    requires Step(Run(m, ops), submit).1.Done?
    ensures submit.leaseId !in m.broker.leases.at
    ensures submit.leaseId in Run(m, ops).broker.leases.at
  {
    hide WellFormed, Stamped, LeaseDiscipline, Accounts, AuditFaithful;
    RunLater(m, ops);
  }

  /**
   A lease is only ever issued on a job that no issued or submitted lease claims; it goes to the
   job that was waiting first among those the worker can serve.
   */
  lemma {:induction false} LeaseIsExclusive(m: Market, op: Op)
    requires Sound(m) && Inv(m.broker) && op.AcquireLease? && FreshId(m, op)
    requires Step(m, op).1.Leased? && Step(m, op).1.lease.Some?
    ensures var lease := Step(m, op).1.lease.value;
      && (forall id :: !Claims(m.broker, id, lease.jobId))
      && (forall id :: Claims(Step(m, op).0.broker, id, lease.jobId) <==> id == lease.leaseId)
      && exists i :: 0 <= i < |m.broker.jobs.keys| && m.broker.jobs.keys[i] == lease.jobId
           && forall k :: 0 <= k < i ==> !Eligible(m.broker, m.broker.jobs.keys[k], m.broker.workers.at[op.workerId])
  {
    hide Stamped, DeadHoldNothing, Accounts, AuditFaithful, Rebuild, Observe, Run;
    NextJobIsFirstEligible(m.broker, m.broker.jobs.keys, m.broker.workers.at[op.workerId]);
    var lease := Step(m, op).1.lease.value;
    assert m.broker.jobs.at[lease.jobId].jobId == lease.jobId;
    IssuedClaims(m.broker, lease, m.broker.jobs.at[lease.jobId], op.now);
  }

  lemma {:induction false} IssuedClaims(b: Broker, lease: RolloutLease, job: RolloutJob, now: real)
    requires forall id :: !Claims(b, id, lease.jobId)
    ensures forall id :: Claims(IssueLease(b, lease, job, now), id, lease.jobId) <==> id == lease.leaseId
  {
    var r := IssueLease(b, lease, job, now);
    forall id ensures Claims(r, id, lease.jobId) <==> id == lease.leaseId {
      if id != lease.leaseId {
        assert !Claims(b, id, lease.jobId);
      }
    }
  }

  /** The worker that gets a lease can serve what the lease asks for, and the lease is pinned to its job. */
  lemma {:induction false} LeaseFitsWorker(m: Market, op: Op)
    requires Sound(m) && Inv(m.broker) && op.AcquireLease? && Step(m, op).1.Leased? && Step(m, op).1.lease.Some?
    ensures var lease := Step(m, op).1.lease.value;
      && lease.workerId == op.workerId && op.workerId in m.broker.workers.at && op.workerId !in m.broker.deadWorkers
      && lease.jobId in m.broker.jobs.at
      && var job, manifest := m.broker.jobs.at[lease.jobId], m.broker.workers.at[op.workerId];
      && lease.requiredPrecisionClass in manifest.precisionClasses
      && lease.maxContextTokens <= manifest.maxContextTokens
      && (lease.requiredQuantizationClass in {None, Some("")}
          || lease.requiredQuantizationClass.value in manifest.quantizationClasses)
      && (job.allowedEngines == [] || manifest.engineName in job.allowedEngines)
      && lease.policyVersion == job.policyVersion && lease.groupSize == job.groupSize
      && lease.idempotencyKey == job.idempotencyKey && lease.issuedAt == op.now < lease.expiresAt
  {
    hide Stamped, DeadHoldNothing, LeaseDiscipline, Accounts, AuditFaithful, IssueLease, NextJob;
    NextJobIsFirstEligible(m.broker, m.broker.jobs.keys, m.broker.workers.at[op.workerId]);
  }

  /**
   A reported failure gives the job back: it keeps its place in the queue and any worker able to serve
   it may lease it.
   */
  lemma {:induction false} FailedJobReturns(m: Market, op: Op, manifest: WorkerManifest)
    requires Sound(m) && Inv(m.broker) && op.ReportFailure? && Step(m, op).1.Done?
    ensures op.leaseId in m.broker.leases.at
    ensures var jobId := m.broker.leases.at[op.leaseId].lease.jobId;
      && Step(m, op).0.broker.jobs == m.broker.jobs && jobId in m.broker.jobs.at
      && (Eligible(Step(m, op).0.broker, jobId, manifest) <==> CapabilitiesMatch(m.broker.jobs.at[jobId], manifest))
  {
    hide Stamped, DeadHoldNothing, LeaseDiscipline, Accounts, AuditFaithful, CapabilitiesMatch;
  }

  /** Work is done once: a job with a submitted lease is not leased again, whatever happens in between. */
  lemma {:induction false} ServedJobIsNotLeasedAgain(m: Market, id: string, ops: seq<Op>, acquire: Op)
    requires Sound(m) && Inv(m.broker) && Admissible(m, ops) && acquire.AcquireLease? && FreshId(Run(m, ops), acquire)
    requires id in m.broker.leases.at && m.broker.leases.at[id].state.Submitted?
    ensures var reply := Step(Run(m, ops), acquire).1;
      reply.Leased? && reply.lease.Some? ==> reply.lease.value.jobId != m.broker.leases.at[id].lease.jobId
  {
    hide Inv, Step, Sound;
    RunInv(m, ops);
    RunLater(m, ops);
    var n := Run(m, ops);
    assert Claims(n.broker, id, m.broker.leases.at[id].lease.jobId);
    if Step(n, acquire).1.Leased? && Step(n, acquire).1.lease.Some? {
      LeaseIsExclusive(n, acquire);
    }
  }

  /**
   What it takes for a submission to succeed, in every reachable state: the worker holds the lease,
   the group is new and is the one decided on, and no group came in under the lease's key. The clock
   has no part in it: an overdue lease is as good as any until a sweep has expired it.
   */
  lemma {:induction false} SubmissionIgnoresExpiry(m: Market, workerId: string, leaseId: string, group: SampleGroup,
                                                   decision: GroupDecision, now: real)
    requires Sound(m) && Inv(m.broker) && Settled(m)
    ensures Step(m, SubmitGroup(workerId, leaseId, group, decision, now)).1.Done? <==>
      && leaseId in m.broker.leases.at && HeldBy(m.broker.leases.at[leaseId], workerId)
      && group.groupId == decision.groupId && group.groupId !in m.store.at
      && m.broker.leases.at[leaseId].lease.idempotencyKey !in m.broker.idempotencyKeys
    ensures leaseId in m.broker.leases.at && m.broker.leases.at[leaseId].state.Expired? ==>
      Step(m, SubmitGroup(workerId, leaseId, group, decision, now)).1.Refused?
  {
    hide Close, Stamped, DeadHoldNothing, LeaseDiscipline, Accounts, AuditFaithful;
  }

  /** A group that is rejected in some state is in no batch served later, whatever transitions are attempted. */
  lemma {:induction false} RejectedIsNeverServed(m: Market, groupId: string, ops: seq<Op>, consume: Op)
    requires Sound(m) && Admissible(m, ops) && consume.Consume?
    requires groupId in m.store.at && m.store.at[groupId].state.Rejected?
    ensures Step(Run(m, ops), consume).1.Served? && groupId !in Step(Run(m, ops), consume).1.groupIds
    ensures groupId in Run(m, ops).store.at
    ensures Run(m, ops).store.at[groupId].servedCount == m.store.at[groupId].servedCount
  {
    RunLater(m, ops);
    LiveStore.BatchIsFirstAdmitted(Run(m, ops).store, consume.query, consume.maxGroups);
  }

  /** A refused operation changes neither broker nor store. */
  lemma {:induction false} RefusalChangesNothing(m: Market, op: Op)
    requires Sound(m) && Step(m, op).1.Refused?
    ensures Step(m, op).0 == m
  {
  }

  // ----- submitted leases and stored groups

  datatype Handin = Handin(key: string, groupId: string)

  /** The submitted leases, with the key and the group of each. */
  function Handins(rows: map<string, LeaseRow>): map<string, Handin> {
    map id | id in rows && rows[id].state.Submitted? && rows[id].submittedGroupId.Some? ::
      Handin(rows[id].lease.idempotencyKey, rows[id].submittedGroupId.value)
  }

  /**
   Every submitted lease has its key bound to its group and that group stored; no two submitted
   leases share a group, hence none share a key; every bound key comes from a submitted lease.
   */
  ghost predicate HandinsSettled(h: map<string, Handin>, keys: map<string, string>, stored: set<string>) {
    && (forall id :: id in h ==> h[id].key in keys && keys[h[id].key] == h[id].groupId)
    && (forall k :: k in keys ==> keys[k] in stored)
    && (forall x, y :: x in h && y in h && h[x].groupId == h[y].groupId ==> x == y)
    && (forall k :: k in keys ==> exists id :: id in h && h[id].key == k)
  }

  ghost predicate Settled(m: Market) {
    HandinsSettled(Handins(m.broker.leases.at), m.broker.idempotencyKeys, m.store.at.Keys)
  }

  lemma {:induction false} HandinsUnchanged(rows: map<string, LeaseRow>, id: string, row: LeaseRow)
    requires id in rows ==> rows[id].state.Issued?
    requires !row.state.Submitted?
    ensures Handins(rows[id := row]) == Handins(rows)
  {
  }

  lemma {:induction false} ReapEachHandins(b: Broker, ids: seq<string>, now: real)
    requires forall id :: id in ids ==> id in b.leases.at
    ensures Handins(ReapEach(b, ids, now).leases.at) == Handins(b.leases.at)
    ensures ReapEach(b, ids, now).idempotencyKeys == b.idempotencyKeys
  {
    if ids == [] {
    } else {
      var n := |ids| - 1;
      ReapEachHandins(b, ids[..n], now);
      var c := ReapEach(b, ids[..n], now);
      if Lapsed(c.leases.at[ids[n]], now) {
        HandinsUnchanged(c.leases.at, ids[n], ReapEach(b, ids, now).leases.at[ids[n]]);
      }
    }
  }

  lemma {:induction false} AbandonEachHandins(b: Broker, ids: seq<string>, workerId: string, age: real, now: real)
    requires forall id :: id in ids ==> id in b.leases.at
    ensures Handins(AbandonEach(b, ids, workerId, age, now).leases.at) == Handins(b.leases.at)
    ensures AbandonEach(b, ids, workerId, age, now).idempotencyKeys == b.idempotencyKeys
  {
    if ids == [] {
    } else {
      var n := |ids| - 1;
      AbandonEachHandins(b, ids[..n], workerId, age, now);
      var c := AbandonEach(b, ids[..n], workerId, age, now);
      if HeldBy(c.leases.at[ids[n]], workerId) {
        HandinsUnchanged(c.leases.at, ids[n], AbandonEach(b, ids, workerId, age, now).leases.at[ids[n]]);
      }
    }
  }

  lemma {:induction false} AbandonWorkerHandins(b: Broker, workerId: string, now: real)
    requires b.leases.Valid()
    ensures Handins(AbandonWorker(b, workerId, now).leases.at) == Handins(b.leases.at)
    ensures AbandonWorker(b, workerId, now).idempotencyKeys == b.idempotencyKeys
  {
    hide Handins;
    if GoneSilent(b, workerId, now) {
      AbandonEachHandins(b, b.leases.keys, workerId, now - b.heartbeats[workerId].lastSeenAt, now);
    }
  }

  lemma {:induction false} AbandonWorkersHandins(b: Broker, ids: seq<string>, now: real)
    requires b.leases.Valid()
    ensures Handins(AbandonWorkers(b, ids, now).leases.at) == Handins(b.leases.at)
    ensures AbandonWorkers(b, ids, now).idempotencyKeys == b.idempotencyKeys
  {
    hide Handins, AbandonWorker;
    if ids == [] {
    } else {
      var n := |ids| - 1;
      AbandonWorkersHandins(b, ids[..n], now);
      AbandonWorkerHandins(AbandonWorkers(b, ids[..n], now), ids[n], now);
    }
  }

  lemma {:induction false} NewHandin(h: map<string, Handin>, keys: map<string, string>, stored: set<string>,
                                     id: string, key: string, groupId: string)
    requires HandinsSettled(h, keys, stored)
    requires id !in h && groupId !in stored && (key in keys ==> keys[key] == groupId)
    ensures HandinsSettled(h[id := Handin(key, groupId)], keys[key := groupId], stored + {groupId})
  {
    var g, ks := h[id := Handin(key, groupId)], keys[key := groupId];
    forall k | k in ks ensures exists i :: i in g && g[i].key == k {
      if k == key {
        assert g[id].key == k;
      } else {
        var i :| i in h && h[i].key == k;
        assert g[i].key == k;
      }
    }
  }

  lemma {:induction false} SubmitGroupSettled(m: Market, workerId: string, leaseId: string, group: SampleGroup,
                                              decision: GroupDecision, now: real)
    requires Settled(m)
    requires WorkerBroker.SubmitGroup(m.broker, m.store, workerId, leaseId, group, decision, now).Ok?
    ensures var (b, s) := WorkerBroker.SubmitGroup(m.broker, m.store, workerId, leaseId, group, decision, now).value;
      Settled(Market(b, s))
  {
    hide HandinsSettled;
    var (b, s) := WorkerBroker.SubmitGroup(m.broker, m.store, workerId, leaseId, group, decision, now).value;
    var key := m.broker.leases.at[leaseId].lease.idempotencyKey;
    NewHandin(Handins(m.broker.leases.at), m.broker.idempotencyKeys, m.store.at.Keys, leaseId, key, group.groupId);
    assert Handins(b.leases.at) == Handins(m.broker.leases.at)[leaseId := Handin(key, group.groupId)];
    assert s.at.Keys == m.store.at.Keys + {group.groupId};
  }

  lemma {:induction false} MoreStored(h: map<string, Handin>, keys: map<string, string>, stored: set<string>,
                                      more: set<string>)
    requires HandinsSettled(h, keys, stored) && stored <= more
    ensures HandinsSettled(h, keys, more)
  {
  }

  lemma {:induction false} StepSettled(m: Market, op: Op)
    requires Sound(m) && Settled(m) && FreshId(m, op)
    ensures Settled(Step(m, op).0)
  {
    hide ReapEach, AbandonWorkers, AbandonedBy, LapsedIds, LiveStore.Batch, HandinsSettled;
    var n := Step(m, op).0;
    if op.SubmitGroup? {
      if Step(m, op).1.Done? {
        SubmitGroupSettled(m, op.workerId, op.leaseId, op.group, op.decision, op.now);
      }
    } else {
      StepKeepsHandins(m, op);
      MoreStored(Handins(m.broker.leases.at), m.broker.idempotencyKeys, m.store.at.Keys, n.store.at.Keys);
    }
  }

  lemma {:induction false} StepKeepsHandins(m: Market, op: Op)
    requires Sound(m) && FreshId(m, op) && !op.SubmitGroup?
    ensures Handins(Step(m, op).0.broker.leases.at) == Handins(m.broker.leases.at)
    ensures Step(m, op).0.broker.idempotencyKeys == m.broker.idempotencyKeys
    ensures m.store.at.Keys <= Step(m, op).0.store.at.Keys
  {
    hide ReapEach, AbandonWorkers, AbandonedBy, LapsedIds, LiveStore.Batch, Handins, HandinsSettled;
    var n := Step(m, op).0;
    match op
    case AcquireLease(w, l, a, now) =>
      if n != m { HandinsUnchanged(m.broker.leases.at, l, n.broker.leases.at[l]); }
    case ReportFailure(w, l, reason, detail, now) =>
      if Step(m, op).1.Done? { HandinsUnchanged(m.broker.leases.at, l, n.broker.leases.at[l]); }
    case ReapExpired(now) => ReapEachHandins(m.broker, m.broker.leases.keys, now);
    case AbandonStaleWorkers(now) => AbandonWorkersHandins(m.broker, m.broker.workers.keys, now);
    case _ =>
  }

  lemma {:induction false} RunSettled(m: Market, ops: seq<Op>)
    requires Sound(m) && Settled(m) && Admissible(m, ops)
    ensures Settled(Run(m, ops))
  {
    hide Settled, Step, Sound;
    if ops == [] {
    } else {
      RunSettled(m, ops[..|ops| - 1]);
      StepSettled(Run(m, ops[..|ops| - 1]), ops[|ops| - 1]);
    }
  }

  // ----- serving

  function BatchLength(r: Reply): nat {
    if r.Served? then |r.groupIds| else 0
  }

  /** The lengths of all batches handed out during a run, added up. */
  function HandedOut(m: Market, ops: seq<Op>): nat
    requires Sound(m)
  {
    if ops == [] then 0
    else HandedOut(m, ops[..|ops| - 1]) + BatchLength(Step(Run(m, ops[..|ops| - 1]), ops[|ops| - 1]).1)
  }

  function ServedSum(m: Market): nat
    requires Sound(m)
  {
    LiveStore.TotalServed(m.store.at, m.store.keys)
  }

  lemma {:induction false} StepServes(m: Market, op: Op)
    requires Sound(m)
    ensures ServedSum(Step(m, op).0) == ServedSum(m) + BatchLength(Step(m, op).1)
  {
    hide ReapEach, AbandonWorkers, AbandonedBy, LapsedIds, LiveStore.Serve, LiveStore.Batch, LiveStore.TotalServed;
    match op
    case SubmitGroup(w, l, group, decision, now) =>
      if Step(m, op).1.Done? { StoredUnserved(m.store, group, decision); }
    case Deposit(group, decision) =>
      if Step(m, op).1.Done? { StoredUnserved(m.store, group, decision); }
    case Transition(id, newState, reason) =>
      LiveStore.TotalServedFrame(m.store.at, Step(m, op).0.store.at, m.store.keys);
    case Consume(q, maxGroups) => LiveStore.ServeConserves(m.store, q, maxGroups);
    case _ =>
  }

  lemma {:induction false} StoredUnserved(s: LiveStore.Store, group: SampleGroup, decision: GroupDecision)
    requires s.Valid() && LiveStore.Submit(s, group, decision).Ok?
    ensures var t := LiveStore.Submit(s, group, decision).value;
      LiveStore.TotalServed(t.at, t.keys) == LiveStore.TotalServed(s.at, s.keys)
  {
    var t := LiveStore.Submit(s, group, decision).value;
    assert t.keys[..|t.keys| - 1] == s.keys;
    LiveStore.TotalServedFrame(s.at, t.at, s.keys);
  }

  /** Conservation: the served counts of all records grow by exactly what was handed out. */
  lemma {:induction false} RunServes(m: Market, ops: seq<Op>)
    requires Sound(m)
    ensures ServedSum(Run(m, ops)) == ServedSum(m) + HandedOut(m, ops)
  {
    hide Step, Sound, ServedSum;
    if ops == [] {
    } else {
      RunServes(m, ops[..|ops| - 1]);
      StepServes(Run(m, ops[..|ops| - 1]), ops[|ops| - 1]);
    }
  }
}
