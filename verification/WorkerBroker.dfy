/**
 The lease broker: its state and what every public method does to it, as functions on values.
 Each method of the original holds one lock from start to end, so these functions are the
 atomic steps of a concurrent run. Clock readings and fresh uuids are parameters.
 */
module WorkerBroker {
  import opened Wrappers
  import opened Dicts
  import opened Contracts
  import LiveStore

  datatype LeaseState = Issued | Submitted | Expired | Abandoned | Failed

  datatype LeaseRow = LeaseRow(
    lease: RolloutLease,
    job: RolloutJob,
    state: LeaseState,
    failureReason: Option<string>,
    submittedGroupId: Option<string>,
    closedAt: Option<real>)

  datatype Event =
    | WorkerRegistered
    | WorkerRevived
    | WorkerMarkedDead
    | JobEnqueued
    | LeaseIssued
    | LeaseSubmitted
    | LeaseFailed
    | LeaseExpired
    | LeaseAbandoned

  /** The structured content of an audit entry's `detail` text. */
  datatype Detail = NoDetail | GroupRef(groupId: string) | FailureText(text: string) | HeartbeatAge(age: real)

  datatype AuditEntry = AuditEntry(
    timestamp: real,
    event: Event,
    workerId: Option<string>,
    leaseId: Option<string>,
    jobId: Option<string>,
    detail: Detail)

  datatype FailureNote = FailureNote(workerId: string, leaseId: string, jobId: string, reason: string, detail: string)

  datatype Broker = Broker(
    leaseTtl: real,
    heartbeatTtl: real,
    workers: Dict<string, WorkerManifest>,
    heartbeats: map<string, WorkerHeartbeat>,
    deadWorkers: set<string>,
    jobs: Dict<string, RolloutJob>,
    leasedJobIds: set<string>,
    leases: Dict<string, LeaseRow>,
    idempotencyKeys: map<string, string>,
    failures: seq<FailureNote>,
    audit: seq<AuditEntry>)

  function EmptyBroker(leaseTtl: real, heartbeatTtl: real): Broker {
    Broker(leaseTtl, heartbeatTtl, EmptyDict(), map[], {}, EmptyDict(), {}, EmptyDict(), map[], [], [])
  }

  function Log(b: Broker, e: AuditEntry): Broker {
    b.(audit := b.audit + [e])
  }

  function WorkerEntry(event: Event, workerId: string, detail: Detail, now: real): AuditEntry {
    AuditEntry(now, event, Some(workerId), None, None, detail)
  }

  function LeaseEntry(event: Event, lease: RolloutLease, detail: Detail, now: real): AuditEntry {
    AuditEntry(now, event, Some(lease.workerId), Some(lease.leaseId), Some(lease.jobId), detail)
  }

  // ----- registration

  function RegisterWorker(b: Broker, manifest: WorkerManifest, now: real): Broker {
    Log(b.(workers := b.workers.Put(manifest.workerId, manifest),
           deadWorkers := b.deadWorkers - {manifest.workerId}),
        WorkerEntry(WorkerRegistered, manifest.workerId, NoDetail, now))
  }

  function Heartbeat(b: Broker, beat: WorkerHeartbeat, now: real): Result<Broker> {
    if beat.workerId !in b.workers.at then Raised(WorkerNotRegistered)
    else
      var alive := b.(heartbeats := b.heartbeats[beat.workerId := beat],
                      deadWorkers := b.deadWorkers - {beat.workerId});
      Ok(if beat.workerId in b.deadWorkers
         then Log(alive, WorkerEntry(WorkerRevived, beat.workerId, NoDetail, now))
         else alive)
  }

  function SubmitJob(b: Broker, job: RolloutJob, now: real): Broker {
    Log(b.(jobs := b.jobs.Put(job.jobId, job)), AuditEntry(now, JobEnqueued, None, None, Some(job.jobId), NoDetail))
  }

  // ----- leases

  predicate CapabilitiesMatch(job: RolloutJob, manifest: WorkerManifest) {
    && job.requiredPrecisionClass in manifest.precisionClasses
    && job.maxContextTokens <= manifest.maxContextTokens
    && (job.requiredQuantizationClass.Some? && job.requiredQuantizationClass.value != "" ==>
          job.requiredQuantizationClass.value in manifest.quantizationClasses)
    && (job.allowedEngines != [] ==> manifest.engineName in job.allowedEngines)
  }

  predicate Eligible(b: Broker, jobId: string, manifest: WorkerManifest) {
    jobId in b.jobs.at && jobId !in b.leasedJobIds && CapabilitiesMatch(b.jobs.at[jobId], manifest)
  }

  function NextJob(b: Broker, ids: seq<string>, manifest: WorkerManifest): Option<string> {
    if ids == [] then None
    else if Eligible(b, ids[0], manifest) then Some(ids[0])
    else NextJob(b, ids[1..], manifest)
  }

  function LeaseFor(job: RolloutJob, workerId: string, leaseId: string, assignmentId: string, now: real, ttl: real)
    : RolloutLease
  {
    RolloutLease(leaseId, job.jobId, assignmentId, workerId, job.policyVersion, job.requiredPrecisionClass,
                 job.requiredQuantizationClass, job.maxContextTokens, job.groupSize, job.idempotencyKey,
                 now, now + ttl)
  }

  function IssueLease(b: Broker, lease: RolloutLease, job: RolloutJob, now: real): Broker {
    Log(b.(leasedJobIds := b.leasedJobIds + {lease.jobId},
           leases := b.leases.Put(lease.leaseId, LeaseRow(lease, job, Issued, None, None, None))),
        LeaseEntry(LeaseIssued, lease, NoDetail, now))
  }

  /**
   The lease's own validator runs before anything is recorded: with a time to live that is not
   positive it raises. `leaseId` and `assignmentId` are the drawn uuids.
   */
  function AcquireLease(b: Broker, workerId: string, leaseId: string, assignmentId: string, now: real)
    : Result<(Broker, Option<RolloutLease>)>
  {
    if workerId !in b.workers.at then Raised(WorkerNotRegistered)
    else if workerId in b.deadWorkers then Raised(WorkerNotRegistered)
    else
      match NextJob(b, b.jobs.keys, b.workers.at[workerId])
      case None => Ok((b, None))
      case Some(jobId) =>
        NextJobIsFirstEligible(b, b.jobs.keys, b.workers.at[workerId]);
        var lease := LeaseFor(b.jobs.at[jobId], workerId, leaseId, assignmentId, now, b.leaseTtl);
        if !lease.Valid() then Raised(InvalidValue)
        else Ok((IssueLease(b, lease, b.jobs.at[jobId], now), Some(lease)))
  }

  /** The queue is FIFO: the job found is eligible and no job before it is; nothing found means none is eligible. */
  lemma {:induction false} NextJobIsFirstEligible(b: Broker, ids: seq<string>, manifest: WorkerManifest)
    ensures NextJob(b, ids, manifest).None? <==> forall id :: id in ids ==> !Eligible(b, id, manifest)
    ensures NextJob(b, ids, manifest).Some? ==> Eligible(b, NextJob(b, ids, manifest).value, manifest)
    ensures NextJob(b, ids, manifest).Some? ==>
      exists i :: 0 <= i < |ids| && ids[i] == NextJob(b, ids, manifest).value
        && forall k :: 0 <= k < i ==> !Eligible(b, ids[k], manifest)
  {
    if ids != [] && !Eligible(b, ids[0], manifest) {
      NextJobIsFirstEligible(b, ids[1..], manifest);
      var r := NextJob(b, ids, manifest);
      if r.Some? {
        var i :| 0 <= i < |ids[1..]| && ids[1..][i] == r.value
          && forall k :: 0 <= k < i ==> !Eligible(b, ids[1..][k], manifest);
        forall k | 0 <= k < i + 1 ensures !Eligible(b, ids[k], manifest) {
          if k > 0 { assert ids[k] == ids[1..][k - 1]; }
        }
        assert ids[i + 1] == r.value;
      }
    }
  }

  // ----- closing a lease: every way a lease leaves the state Issued goes through Close

  function ClosingEvent(state: LeaseState): Event
    requires !state.Issued?
  {
    match state
    case Submitted => LeaseSubmitted
    case Expired => LeaseExpired
    case Abandoned => LeaseAbandoned
    case Failed => LeaseFailed
  }

  function Close(b: Broker, leaseId: string, state: LeaseState, reason: Option<string>, group: Option<string>,
                 detail: Detail, now: real): Broker
    requires leaseId in b.leases.at && !state.Issued?
  {
    var row := b.leases.at[leaseId];
    Log(b.(leases := b.leases.Replace(leaseId, row.(state := state, failureReason := reason,
                                                    submittedGroupId := group, closedAt := Some(now))),
           leasedJobIds := if state.Submitted? then b.leasedJobIds else b.leasedJobIds - {row.lease.jobId}),
        LeaseEntry(ClosingEvent(state), row.lease, detail, now))
  }

  function SubmitGroup(b: Broker, store: LiveStore.Store, workerId: string, leaseId: string,
                       group: SampleGroup, decision: GroupDecision, now: real)
    : Result<(Broker, LiveStore.Store)>
  {
    if workerId !in b.workers.at then Raised(WorkerNotRegistered)
    else if leaseId !in b.leases.at then Raised(LeaseConflict)
    else
      var row := b.leases.at[leaseId];
      if row.lease.workerId != workerId then Raised(LeaseConflict)
      else if !row.state.Issued? then Raised(LeaseConflict)
      else
        var key := row.lease.idempotencyKey;
        if key in b.idempotencyKeys && b.idempotencyKeys[key] != group.groupId then Raised(LeaseConflict)
        else
          match LiveStore.Submit(store, group, decision)
          case Raised(e) => Raised(e)
          case Ok(stored) =>
            var bound := b.(idempotencyKeys := b.idempotencyKeys[key := group.groupId]);
            Ok((Close(bound, leaseId, Submitted, row.failureReason, Some(group.groupId), GroupRef(group.groupId), now),
                stored))
  }

  function FailureLine(reason: string, detail: Option<string>): string {
    reason + ": " + if detail.Some? then detail.value else ""
  }

  function ReportFailure(b: Broker, workerId: string, leaseId: string, reason: string, detail: Option<string>,
                         now: real)
    : Result<Broker>
  {
    if workerId !in b.workers.at then Raised(WorkerNotRegistered)
    else if leaseId !in b.leases.at || b.leases.at[leaseId].lease.workerId != workerId then Raised(LeaseConflict)
    else if !b.leases.at[leaseId].state.Issued? then Raised(LeaseConflict)
    else
      var note := FailureNote(workerId, leaseId, b.leases.at[leaseId].lease.jobId, reason,
                              if detail.Some? then detail.value else "");
      Ok(Close(b, leaseId, Failed, Some(reason), b.leases.at[leaseId].submittedGroupId,
               FailureText(FailureLine(reason, detail)), now)
           .(failures := b.failures + [note]))
  }

  // ----- reaping

  predicate Lapsed(row: LeaseRow, now: real) {
    row.state.Issued? && row.lease.IsExpired(now)
  }

  function ReapOne(b: Broker, leaseId: string, now: real): Broker
    requires leaseId in b.leases.at
  {
    var row := b.leases.at[leaseId];
    if Lapsed(row, now)
    then Close(b, leaseId, Expired, row.failureReason, row.submittedGroupId, NoDetail, now)
    else b
  }

  function ReapEach(b: Broker, ids: seq<string>, now: real): (r: Broker)
    requires forall id :: id in ids ==> id in b.leases.at
    ensures r.leases.at.Keys == b.leases.at.Keys && r.leases.keys == b.leases.keys
  {
    if ids == [] then b
    else ReapOne(ReapEach(b, ids[..|ids| - 1], now), ids[|ids| - 1], now)
  }

  function LapsedIds(rows: map<string, LeaseRow>, ids: seq<string>, now: real): seq<string>
    requires forall id :: id in ids ==> id in rows
  {
    if ids == [] then []
    else
      var n := |ids| - 1;
      LapsedIds(rows, ids[..n], now) + if Lapsed(rows[ids[n]], now) then [ids[n]] else []
  }

  function ReapExpired(b: Broker, now: real): (Broker, seq<string>)
    requires b.leases.Valid()
  {
    (ReapEach(b, b.leases.keys, now), LapsedIds(b.leases.at, b.leases.keys, now))
  }

  lemma {:induction false} ReapEachSpares(b: Broker, ids: seq<string>, now: real, leaseId: string)
    requires forall id :: id in ids ==> id in b.leases.at
    requires leaseId in b.leases.at && leaseId !in ids
    ensures ReapEach(b, ids, now).leases.at[leaseId] == b.leases.at[leaseId]
  {
    if ids == [] {
    } else {
      ReapEachSpares(b, ids[..|ids| - 1], now, leaseId);
    }
  }

  // ----- abandoning the leases of silent workers

  predicate GoneSilent(b: Broker, workerId: string, now: real) {
    && workerId !in b.deadWorkers
    && workerId in b.heartbeats
    && now - b.heartbeats[workerId].lastSeenAt > b.heartbeatTtl
  }

  predicate HeldBy(row: LeaseRow, workerId: string) {
    row.lease.workerId == workerId && row.state.Issued?
  }

  function AbandonOne(b: Broker, leaseId: string, workerId: string, age: real, now: real): Broker
    requires leaseId in b.leases.at
  {
    var row := b.leases.at[leaseId];
    if HeldBy(row, workerId)
    then Close(b, leaseId, Abandoned, Some("worker_dead"), row.submittedGroupId, HeartbeatAge(age), now)
    else b
  }

  function AbandonEach(b: Broker, ids: seq<string>, workerId: string, age: real, now: real): (r: Broker)
    requires forall id :: id in ids ==> id in b.leases.at
    ensures r.leases.at.Keys == b.leases.at.Keys && r.leases.keys == b.leases.keys
    ensures r.heartbeats == b.heartbeats && r.deadWorkers == b.deadWorkers && r.heartbeatTtl == b.heartbeatTtl
  {
    if ids == [] then b
    else AbandonOne(AbandonEach(b, ids[..|ids| - 1], workerId, age, now), ids[|ids| - 1], workerId, age, now)
  }

  lemma {:induction false} AbandonEachSpares(b: Broker, ids: seq<string>, workerId: string, age: real, now: real,
                                             leaseId: string)
    requires forall id :: id in ids ==> id in b.leases.at
    requires leaseId in b.leases.at && leaseId !in ids
    ensures AbandonEach(b, ids, workerId, age, now).leases.at[leaseId] == b.leases.at[leaseId]
  {
    if ids == [] {
    } else {
      AbandonEachSpares(b, ids[..|ids| - 1], workerId, age, now, leaseId);
    }
  }

  lemma {:induction false} AbandonEachIgnoresDead(b: Broker, dead: set<string>, ids: seq<string>, workerId: string,
                                                  age: real, now: real)
    requires forall id :: id in ids ==> id in b.leases.at
    ensures AbandonEach(b.(deadWorkers := dead), ids, workerId, age, now)
      == AbandonEach(b, ids, workerId, age, now).(deadWorkers := dead)
  {
    if ids == [] {
    } else {
      AbandonEachIgnoresDead(b, dead, ids[..|ids| - 1], workerId, age, now);
    }
  }

  function HeldIds(rows: map<string, LeaseRow>, ids: seq<string>, workerId: string): seq<string>
    requires forall id :: id in ids ==> id in rows
  {
    if ids == [] then []
    else
      var n := |ids| - 1;
      HeldIds(rows, ids[..n], workerId) + if HeldBy(rows[ids[n]], workerId) then [ids[n]] else []
  }

  function MarkDead(b: Broker, workerId: string, age: real, now: real): Broker {
    Log(b.(deadWorkers := b.deadWorkers + {workerId}), WorkerEntry(WorkerMarkedDead, workerId, HeartbeatAge(age), now))
  }

  function AbandonWorker(b: Broker, workerId: string, now: real): (r: Broker)
    requires b.leases.Valid()
    ensures r.leases.at.Keys == b.leases.at.Keys && r.leases.keys == b.leases.keys && r.leases.Valid()
    ensures r.heartbeats == b.heartbeats && r.heartbeatTtl == b.heartbeatTtl
  {
    if GoneSilent(b, workerId, now) then
      var age := now - b.heartbeats[workerId].lastSeenAt;
      MarkDead(AbandonEach(b, b.leases.keys, workerId, age, now), workerId, age, now)
    else b
  }

  function AbandonWorkers(b: Broker, ids: seq<string>, now: real): (r: Broker)
    requires b.leases.Valid()
    ensures r.leases.at.Keys == b.leases.at.Keys && r.leases.keys == b.leases.keys && r.leases.Valid()
    ensures r.heartbeats == b.heartbeats && r.heartbeatTtl == b.heartbeatTtl
  {
    if ids == [] then b
    else AbandonWorker(AbandonWorkers(b, ids[..|ids| - 1], now), ids[|ids| - 1], now)
  }

  /** The workers newly declared dead, each with the lease ids abandoned on its behalf. */
  function AbandonedBy(b: Broker, ids: seq<string>, now: real): seq<(string, seq<string>)>
    requires b.leases.Valid()
  {
    if ids == [] then []
    else
      var n := |ids| - 1;
      var before := AbandonWorkers(b, ids[..n], now);
      AbandonedBy(b, ids[..n], now) +
      if GoneSilent(before, ids[n], now)
      then [(ids[n], HeldIds(before.leases.at, before.leases.keys, ids[n]))]
      else []
  }

  function AbandonStaleWorkers(b: Broker, now: real): (Broker, seq<(string, seq<string>)>)
    requires b.leases.Valid()
  {
    (AbandonWorkers(b, b.workers.keys, now), AbandonedBy(b, b.workers.keys, now))
  }
}
