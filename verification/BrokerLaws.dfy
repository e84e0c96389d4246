/**
 What the broker's operations do, told in the fields of its records alone: who gets which job,
 what a refusal looks like, which leases and workers a sweep ends, and what the audit log gains.
 */
module BrokerLaws {
  import opened Wrappers
  import opened Dicts
  import opened Contracts
  import opened WorkerBroker
  import opened BrokerInvariants
  import opened Marketplace
  import BrokerLoops
  import LiveStore

  // ----- registration and queueing

  /** Registering replaces the manifest where the worker stands, brings it back to life and is logged. */
  lemma RegisterWorkerLaw(m: Market, manifest: WorkerManifest, now: real)
    requires Sound(m)
    ensures var (n, reply) := Step(m, RegisterWorker(manifest, now)); var b, c := m.broker, n.broker;
      && reply.Done? && n.store == m.store
      && c.workers.at == b.workers.at[manifest.workerId := manifest]
      && c.workers.keys == (if manifest.workerId in b.workers.at then b.workers.keys
                            else b.workers.keys + [manifest.workerId])
      && c.deadWorkers == b.deadWorkers - {manifest.workerId}
      && c.audit == b.audit + [AuditEntry(now, WorkerRegistered, Some(manifest.workerId), None, None, NoDetail)]
      && c == b.(workers := c.workers, deadWorkers := c.deadWorkers, audit := c.audit)
  {
  }

  /** A heartbeat counts for registered workers only; it is kept, and a dead worker comes back to life. */
  lemma HeartbeatLaw(m: Market, beat: WorkerHeartbeat, now: real)
    requires Sound(m)
    ensures var (n, reply) := Step(m, Heartbeat(beat, now)); var b, c := m.broker, n.broker;
      if beat.workerId !in b.workers.at then n == m && reply == Refused(WorkerNotRegistered)
      else
        && reply.Done? && n.store == m.store
        && c.heartbeats == b.heartbeats[beat.workerId := beat] && c.deadWorkers == b.deadWorkers - {beat.workerId}
        && c.audit == b.audit + (if beat.workerId in b.deadWorkers
                                 then [AuditEntry(now, WorkerRevived, Some(beat.workerId), None, None, NoDetail)]
                                 else [])
        && c == b.(heartbeats := c.heartbeats, deadWorkers := c.deadWorkers, audit := c.audit)
  {
  }

  /** A job goes to the end of the queue, or in place of the one with its id. */
  lemma SubmitJobLaw(m: Market, job: RolloutJob, now: real)
    requires Sound(m)
    ensures var (n, reply) := Step(m, SubmitJob(job, now)); var b, c := m.broker, n.broker;
      && reply.Done? && n.store == m.store && c.jobs.at == b.jobs.at[job.jobId := job]
      && c.jobs.keys == (if job.jobId in b.jobs.at then b.jobs.keys else b.jobs.keys + [job.jobId])
      && c.audit == b.audit + [AuditEntry(now, JobEnqueued, None, None, Some(job.jobId), NoDetail)]
      && c == b.(jobs := c.jobs, audit := c.audit)
  {
  }

  // ----- leases

  /** The worker has the job's precision, context, quantization and engine. */
  predicate CanServe(manifest: WorkerManifest, job: RolloutJob) {
    && job.requiredPrecisionClass in manifest.precisionClasses
    && manifest.maxContextTokens >= job.maxContextTokens
    && (job.requiredQuantizationClass in {None, Some("")}
        || job.requiredQuantizationClass.value in manifest.quantizationClasses)
    && (|job.allowedEngines| == 0 || manifest.engineName in job.allowedEngines)
  }

  /** The i-th job of the queue can go to the worker: no lease on it is out or was submitted. */
  ghost predicate Waiting(b: Broker, workerId: string, i: nat)
    requires workerId in b.workers.at
  {
    && i < |b.jobs.keys| && b.jobs.keys[i] in b.jobs.at
    && CanServe(b.workers.at[workerId], b.jobs.at[b.jobs.keys[i]])
    && forall id :: id in b.leases.at && b.leases.at[id].lease.jobId == b.jobs.keys[i] ==>
         b.leases.at[id].state in {Expired, Abandoned, Failed}
  }

  ghost predicate FirstWaiting(b: Broker, workerId: string, i: nat)
    requires workerId in b.workers.at
  {
    Waiting(b, workerId, i) && forall k: nat :: k < i ==> !Waiting(b, workerId, k)
  }

  lemma ServesIff(manifest: WorkerManifest, job: RolloutJob)
    ensures CanServe(manifest, job) <==> CapabilitiesMatch(job, manifest)
  {
    assert |job.allowedEngines| == 0 <==> job.allowedEngines == [];
    var needed := job.requiredQuantizationClass;
    assert needed in {None, Some("")} <==> needed.None? || needed.value == "";
  }

  lemma ClaimIff(b: Broker, id: string, j: string)
    requires id in b.leases.at && b.leases.at[id].lease.jobId == j
    ensures !Claims(b, id, j) <==> b.leases.at[id].state in {Expired, Abandoned, Failed}
  {
  }

  /** A job is taken exactly when a lease on it is out or was submitted. */
  lemma {:induction false} TakenIff(b: Broker, j: string)
    requires LeaseDiscipline(b)
    ensures j !in b.leasedJobIds <==>
      forall id :: id in b.leases.at && b.leases.at[id].lease.jobId == j ==>
        b.leases.at[id].state in {Expired, Abandoned, Failed}
  {
    forall id | id in b.leases.at && b.leases.at[id].lease.jobId == j
      ensures !Claims(b, id, j) <==> b.leases.at[id].state in {Expired, Abandoned, Failed}
    {
      ClaimIff(b, id, j);
    }
    if j in b.leasedJobIds {
      var id :| Claims(b, id, j);
      assert id in b.leases.at && b.leases.at[id].lease.jobId == j;
    } else {
      assert forall id :: !Claims(b, id, j);
    }
  }

  lemma {:induction false} EligibleIsWaiting(b: Broker, workerId: string, i: nat)
    requires LeaseDiscipline(b) && b.jobs.Valid() && workerId in b.workers.at && i < |b.jobs.keys|
    ensures Eligible(b, b.jobs.keys[i], b.workers.at[workerId]) <==> Waiting(b, workerId, i)
  {
    hide LeaseDiscipline, CanServe, CapabilitiesMatch;
    TakenIff(b, b.jobs.keys[i]);
    assert b.jobs.keys[i] in b.jobs.at;
    ServesIff(b.workers.at[workerId], b.jobs.at[b.jobs.keys[i]]);
  }

  lemma InvParts(b: Broker)
    requires Inv(b)
    ensures b.jobs.Valid() && LeaseDiscipline(b) && forall id :: id in b.jobs.at ==> b.jobs.at[id].jobId == id
  {
  }

  lemma {:induction false} NextIsFirstWaiting(b: Broker, w: string)
    requires LeaseDiscipline(b) && b.jobs.Valid() && w in b.workers.at
    ensures var next := NextJob(b, b.jobs.keys, b.workers.at[w]);
      && (next.None? <==> forall i: nat :: !Waiting(b, w, i))
      && forall i: nat :: FirstWaiting(b, w, i) ==> next == Some(b.jobs.keys[i])
  {
    hide Waiting, NextJob, Eligible, LeaseDiscipline;
    var keys := b.jobs.keys;
    NextJobIsFirstEligible(b, keys, b.workers.at[w]);
    forall i: nat ensures Waiting(b, w, i) <==> i < |keys| && Eligible(b, keys[i], b.workers.at[w]) {
      WaitingInRange(b, w, i);
      if i < |keys| { EligibleIsWaiting(b, w, i); }
    }
  }

  lemma WaitingInRange(b: Broker, w: string, i: nat)
    requires w in b.workers.at
    ensures Waiting(b, w, i) ==> i < |b.jobs.keys| && b.jobs.keys[i] in b.jobs.at
  {
  }

  /** The lease is on record as issued, its job is taken, the log says so, and nothing else has changed. */
  ghost predicate HandedOut(b: Broker, c: Broker, lease: RolloutLease, job: RolloutJob) {
    && c.leases.keys == b.leases.keys + [lease.leaseId]
    && c.leases.at == b.leases.at[lease.leaseId := LeaseRow(lease, job, Issued, None, None, None)]
    && c.leasedJobIds == b.leasedJobIds + {lease.jobId}
    && c.audit == b.audit + [AuditEntry(lease.issuedAt, LeaseIssued, Some(lease.workerId), Some(lease.leaseId),
                                        Some(lease.jobId), NoDetail)]
    && c == b.(leases := c.leases, leasedJobIds := c.leasedJobIds, audit := c.audit)
  }

  /** What acquiring does for a living worker when job number `i` of the queue is the first one waiting for it. */
  ghost predicate LeasedOut(m: Market, n: Market, reply: Reply, w: string, leaseId: string, assignmentId: string,
                            now: real, i: nat)
    requires i < |m.broker.jobs.keys| && m.broker.jobs.keys[i] in m.broker.jobs.at
  {
    var b := m.broker;
    var job := b.jobs.at[b.jobs.keys[i]];
    if job.groupSize < 1 || job.maxContextTokens <= 0 || b.leaseTtl <= 0.0
    then n == m && reply == Refused(InvalidValue)
    else
      var lease := RolloutLease(
        leaseId, b.jobs.keys[i], assignmentId, w, job.policyVersion, job.requiredPrecisionClass,
        job.requiredQuantizationClass, job.maxContextTokens, job.groupSize, job.idempotencyKey,
        now, now + b.leaseTtl);
      && reply == Leased(Some(lease)) && HandedOut(b, n.broker, lease, job) && n.store == m.store
  }

  lemma AcquireOn(m: Market, w: string, leaseId: string, assignmentId: string, now: real, i: nat)
    requires Sound(m) && Inv(m.broker) && leaseId !in m.broker.leases.at
    requires w in m.broker.workers.at && w !in m.broker.deadWorkers
    requires i < |m.broker.jobs.keys| && m.broker.jobs.keys[i] in m.broker.jobs.at
    requires NextJob(m.broker, m.broker.jobs.keys, m.broker.workers.at[w]) == Some(m.broker.jobs.keys[i])
    ensures var (n, reply) := Step(m, AcquireLease(w, leaseId, assignmentId, now));
      LeasedOut(m, n, reply, w, leaseId, assignmentId, now, i)
  {
    hide NextJob, Inv, CapabilitiesMatch;
    InvParts(m.broker);
  }

  lemma AcquireOff(m: Market, w: string, leaseId: string, assignmentId: string, now: real)
    requires Sound(m)
    ensures var (n, reply) := Step(m, AcquireLease(w, leaseId, assignmentId, now)); var b := m.broker;
      && (w !in b.workers.at || w in b.deadWorkers ==> n == m && reply == Refused(WorkerNotRegistered))
      && (w in b.workers.at && w !in b.deadWorkers && NextJob(b, b.jobs.keys, b.workers.at[w]).None? ==>
            n == m && reply == Leased(None))
  {
    hide NextJob;
  }

  /**
   A worker that is registered and alive gets a lease on the first job waiting for it, pinned to
   that job, from now until the time to live is over; with no job waiting it gets none. Anyone else
   is refused, as is a lease that its own validator does not accept.
   */
  lemma {:induction false} AcquireLeaseLaw(m: Market, w: string, leaseId: string, assignmentId: string, now: real)
    requires Sound(m) && Inv(m.broker) && leaseId !in m.broker.leases.at
    ensures var (n, reply) := Step(m, AcquireLease(w, leaseId, assignmentId, now)); var b := m.broker;
      && (w !in b.workers.at || w in b.deadWorkers ==> n == m && reply == Refused(WorkerNotRegistered))
      && (w in b.workers.at && w !in b.deadWorkers ==>
            && ((forall i: nat :: !Waiting(b, w, i)) ==> n == m && reply == Leased(None))
            && forall i: nat :: FirstWaiting(b, w, i) ==>
                 && i < |b.jobs.keys| && b.jobs.keys[i] in b.jobs.at
                 && LeasedOut(m, n, reply, w, leaseId, assignmentId, now, i))
  {
    hide Waiting, NextJob, Inv, LeasedOut, Step;
    var b := m.broker;
    AcquireOff(m, w, leaseId, assignmentId, now);
    if w in b.workers.at && w !in b.deadWorkers {
      InvParts(b);
      NextIsFirstWaiting(b, w);
      forall i: nat | FirstWaiting(b, w, i)
        ensures i < |b.jobs.keys| && b.jobs.keys[i] in b.jobs.at
        ensures var (n, reply) := Step(m, AcquireLease(w, leaseId, assignmentId, now));
          LeasedOut(m, n, reply, w, leaseId, assignmentId, now, i)
      {
        WaitingInRange(b, w, i);
        AcquireOn(m, w, leaseId, assignmentId, now, i);
      }
    }
  }

  /** One lease has been closed in this way, the log says so, and the job is free unless its group came in. */
  ghost predicate ClosedOne(b: Broker, c: Broker, leaseId: string, row: LeaseRow, event: Event, detail: Detail,
                            now: real)
    requires leaseId in b.leases.at
  {
    var lease := b.leases.at[leaseId].lease;
    && c.leases.keys == b.leases.keys && c.leases.at == b.leases.at[leaseId := row]
    && c.leasedJobIds == (if row.state.Submitted? then b.leasedJobIds else b.leasedJobIds - {lease.jobId})
    && c.audit == b.audit + [AuditEntry(now, event, Some(lease.workerId), Some(lease.leaseId), Some(lease.jobId),
                                        detail)]
  }

  /**
   A submission: who is refused and with what error, in this order, and what success leaves behind
   in broker and store.
   */
  lemma {:induction false} SubmitGroupLaw(m: Market, w: string, leaseId: string, group: SampleGroup,
                                          decision: GroupDecision, now: real)
    requires Sound(m)
    ensures var (n, reply) := Step(m, SubmitGroup(w, leaseId, group, decision, now)); var b, c := m.broker, n.broker;
      if w !in b.workers.at then n == m && reply == Refused(WorkerNotRegistered)
      else if leaseId !in b.leases.at || b.leases.at[leaseId].lease.workerId != w || !b.leases.at[leaseId].state.Issued?
      then n == m && reply == Refused(LeaseConflict)
      else
        var row := b.leases.at[leaseId];
        var key := row.lease.idempotencyKey;
        if key in b.idempotencyKeys && b.idempotencyKeys[key] != group.groupId
        then n == m && reply == Refused(LeaseConflict)
        else if group.groupId != decision.groupId then n == m && reply == Refused(InvalidValue)
        else if group.groupId in m.store.at then n == m && reply == Refused(DuplicateGroup)
        else
          && reply.Done?
          && ClosedOne(b, c, leaseId, row.(state := Submitted, submittedGroupId := Some(group.groupId),
                                           closedAt := Some(now)),
                       LeaseSubmitted, GroupRef(group.groupId), now)
          && c.idempotencyKeys == b.idempotencyKeys[key := group.groupId]
          && c == b.(leases := c.leases, leasedJobIds := c.leasedJobIds, audit := c.audit,
                     idempotencyKeys := c.idempotencyKeys)
          && n.store.keys == m.store.keys + [group.groupId]
          && n.store.at == m.store.at[group.groupId :=
                             LiveStore.StoredValue(group, decision.status, decision.rejectionReason, 0)]
  {
  }

  /** A reported failure: refused unless the worker holds the lease; otherwise lease, job, notes and log follow. */
  lemma {:induction false} ReportFailureLaw(m: Market, w: string, leaseId: string, reason: string,
                                            detail: Option<string>, now: real)
    requires Sound(m)
    ensures var (n, reply) := Step(m, ReportFailure(w, leaseId, reason, detail, now)); var b, c := m.broker, n.broker;
      if w !in b.workers.at then n == m && reply == Refused(WorkerNotRegistered)
      else if leaseId !in b.leases.at || b.leases.at[leaseId].lease.workerId != w || !b.leases.at[leaseId].state.Issued?
      then n == m && reply == Refused(LeaseConflict)
      else
        var row, text := b.leases.at[leaseId], if detail.Some? then detail.value else "";
        && reply.Done? && n.store == m.store
        && ClosedOne(b, c, leaseId, row.(state := Failed, failureReason := Some(reason), closedAt := Some(now)),
                     LeaseFailed, FailureText(reason + ": " + text), now)
        && c.failures == b.failures + [FailureNote(w, leaseId, row.lease.jobId, reason, text)]
        && c == b.(leases := c.leases, leasedJobIds := c.leasedJobIds, audit := c.audit, failures := c.failures)
  {
  }

  // ----- sweeping expired leases

  /** Every entry of `part` stands in `all`, in the same order. */
  ghost predicate InOrderOf(part: seq<string>, all: seq<string>) {
    && (forall x :: x in part ==> x in all)
    && forall i, k :: 0 <= i < k < |part| ==> LiveStore.Position(all, part[i]) < LiveStore.Position(all, part[k])
  }

  function ExpiryLog(rows: map<string, LeaseRow>, ids: seq<string>, now: real): seq<AuditEntry>
    requires forall id :: id in ids ==> id in rows
  {
    seq(|ids|, k requires 0 <= k < |ids| =>
      var lease := rows[ids[k]].lease;
      AuditEntry(now, LeaseExpired, Some(lease.workerId), Some(lease.leaseId), Some(lease.jobId), NoDetail))
  }

  lemma {:induction false} LapsedInOrder(rows: map<string, LeaseRow>, ids: seq<string>, now: real)
    requires Distinct(ids) && forall id :: id in ids ==> id in rows
    ensures var r := LapsedIds(rows, ids, now);
      && InOrderOf(r, ids) && Distinct(r)
      && forall id :: id in r <==> id in ids && rows[id].state.Issued? && now >= rows[id].lease.expiresAt
  {
    hide InOrderOf;
    if ids == [] {
      NothingInOrder(ids);
    } else {
      var n := |ids| - 1;
      DistinctPrefix(ids, n);
      LapsedInOrder(rows, ids[..n], now);
      assert ids == ids[..n] + [ids[n]];
      LongerOrder(LapsedIds(rows, ids[..n], now), ids[..n], ids[n], Lapsed(rows[ids[n]], now));
    }
  }

  lemma LongerOrder(part: seq<string>, all: seq<string>, x: string, taken: bool)
    requires InOrderOf(part, all) && Distinct(all + [x])
    ensures InOrderOf(part + (if taken then [x] else []), all + [x]) && x !in part
  {
    assert (all + [x])[..|all|] == all;
    DistinctPrefix(all + [x], |all|);
  }

  lemma {:induction false} ReapFrame(b: Broker, ids: seq<string>, now: real)
    requires Distinct(ids) && forall id :: id in ids ==> id in b.leases.at
    ensures var r := ReapEach(b, ids, now);
      && r == b.(leases := r.leases, leasedJobIds := r.leasedJobIds, audit := r.audit)
      && (forall id :: id in LapsedIds(b.leases.at, ids, now) ==> id in b.leases.at)
      && r.audit == b.audit + ExpiryLog(b.leases.at, LapsedIds(b.leases.at, ids, now), now)
  {
    if ids == [] {
    } else {
      var n := |ids| - 1;
      DistinctPrefix(ids, n);
      ReapFrame(b, ids[..n], now);
      ReapEachSpares(b, ids[..n], now, ids[n]);
      ReapOneLog(ReapEach(b, ids[..n], now), ids[n], now);
      LogGrows(b.leases.at, LapsedIds(b.leases.at, ids[..n], now), ids[n], now);
    }
  }

  lemma ReapOneLog(b: Broker, leaseId: string, now: real)
    requires leaseId in b.leases.at
    ensures var r := ReapOne(b, leaseId, now);
      && r == b.(leases := r.leases, leasedJobIds := r.leasedJobIds, audit := r.audit)
      && r.audit == b.audit + (if Lapsed(b.leases.at[leaseId], now) then ExpiryLog(b.leases.at, [leaseId], now) else [])
  {
  }

  lemma LogGrows(rows: map<string, LeaseRow>, ids: seq<string>, id: string, now: real)
    requires id in rows && forall x :: x in ids ==> x in rows
    ensures ExpiryLog(rows, ids + [id], now) == ExpiryLog(rows, ids, now) + ExpiryLog(rows, [id], now)
  {
  }

  /**
   Reaping closes exactly the issued leases whose expiry has come, as expired and now; frees
   exactly their jobs; returns exactly their ids in the order of issue, and logs each of them.
   */
  lemma {:induction false} ReapExpiredLaw(m: Market, now: real)
    requires Sound(m)
    ensures var (n, reply) := Step(m, ReapExpired(now)); var b, c := m.broker, n.broker;
      && reply.Reaped? && n.store == m.store && c.leases.keys == b.leases.keys && c.leases.at.Keys == b.leases.at.Keys
      && (forall id :: id in b.leases.at ==>
            var row := b.leases.at[id];
            c.leases.at[id] == if row.state.Issued? && now >= row.lease.expiresAt
                               then row.(state := Expired, closedAt := Some(now)) else row)
      && (forall id :: id in reply.leaseIds <==>
            id in b.leases.at && b.leases.at[id].state.Issued? && now >= b.leases.at[id].lease.expiresAt)
      && InOrderOf(reply.leaseIds, b.leases.keys) && Distinct(reply.leaseIds)
      && (forall j :: j in c.leasedJobIds <==>
            j in b.leasedJobIds && forall id :: id in reply.leaseIds ==> b.leases.at[id].lease.jobId != j)
      && c.audit == b.audit + ExpiryLog(b.leases.at, reply.leaseIds, now)
      && c == b.(leases := c.leases, leasedJobIds := c.leasedJobIds, audit := c.audit)
  {
    hide ReapEach, LapsedIds, InOrderOf;
    BrokerLoops.ReapExpiredExact(m.broker, now);
    LapsedInOrder(m.broker.leases.at, m.broker.leases.keys, now);
    ReapFrame(m.broker, m.broker.leases.keys, now);
  }

  // ----- sweeping silent workers

  /** Registered, alive so far, and the last heartbeat is longer ago than the time to live. */
  ghost predicate Dies(b: Broker, w: string, now: real) {
    && w in b.workers.at && w !in b.deadWorkers
    && w in b.heartbeats && now - b.heartbeats[w].lastSeenAt > b.heartbeatTtl
  }

  /** The leases are exactly those the worker holds, in the order of issue. */
  ghost predicate AllHeld(b: Broker, w: string, ids: seq<string>) {
    && (forall id :: id in ids <==>
          id in b.leases.at && b.leases.at[id].lease.workerId == w && b.leases.at[id].state.Issued?)
    && InOrderOf(ids, b.leases.keys) && Distinct(ids)
  }

  lemma {:induction false} HeldInOrder(rows: map<string, LeaseRow>, ids: seq<string>, w: string)
    requires Distinct(ids) && forall id :: id in ids ==> id in rows
    ensures var r := HeldIds(rows, ids, w);
      && InOrderOf(r, ids) && Distinct(r)
      && forall id :: id in r <==> id in ids && rows[id].lease.workerId == w && rows[id].state.Issued?
  {
    hide InOrderOf;
    if ids == [] {
      NothingInOrder(ids);
    } else {
      var n := |ids| - 1;
      DistinctPrefix(ids, n);
      HeldInOrder(rows, ids[..n], w);
      assert ids == ids[..n] + [ids[n]];
      LongerOrder(HeldIds(rows, ids[..n], w), ids[..n], ids[n], HeldBy(rows[ids[n]], w));
    }
  }

  lemma NothingInOrder(all: seq<string>)
    ensures InOrderOf([], all)
  {
  }

  /** The workers of a report. */
  function Reported(report: seq<(string, seq<string>)>): (r: seq<string>)
    ensures |r| == |report| && forall k :: 0 <= k < |r| ==> r[k] == report[k].0
  {
    seq(|report|, k requires 0 <= k < |report| => report[k].0)
  }

  lemma {:induction false} HoldingsInOrder(b: Broker, ids: seq<string>, now: real)
    requires b.leases.Valid() && Distinct(ids) && forall w :: w in ids ==> w in b.workers.at
    ensures var report := BrokerLoops.SilentHoldings(b, ids, now);
      && InOrderOf(Reported(report), ids) && Distinct(Reported(report))
      && (forall w :: w in Reported(report) <==> w in ids && Dies(b, w, now))
      && forall k :: 0 <= k < |report| ==> AllHeld(b, report[k].0, report[k].1)
  {
    hide InOrderOf, HeldIds, AllHeld;
    if ids == [] {
      NothingInOrder(ids);
      assert Reported([]) == [];
    } else {
      var n := |ids| - 1;
      DistinctPrefix(ids, n);
      HoldingsInOrder(b, ids[..n], now);
      assert ids == ids[..n] + [ids[n]];
      var before := BrokerLoops.SilentHoldings(b, ids[..n], now);
      LongerOrder(Reported(before), ids[..n], ids[n], GoneSilent(b, ids[n], now));
      AllHeldIs(b, ids[n]);
      var report := BrokerLoops.SilentHoldings(b, ids, now);
      assert Reported(report) == Reported(before) + if GoneSilent(b, ids[n], now) then [ids[n]] else [];
    }
  }

  lemma AllHeldIs(b: Broker, w: string)
    requires b.leases.Valid()
    ensures AllHeld(b, w, HeldIds(b.leases.at, b.leases.keys, w))
  {
    hide InOrderOf, HeldIds;
    HeldInOrder(b.leases.at, b.leases.keys, w);
  }

  lemma {:induction false} AbandonFrame(b: Broker, ids: seq<string>, now: real)
    requires b.leases.Valid()
    ensures var r := AbandonWorkers(b, ids, now);
      r == b.(leases := r.leases, leasedJobIds := r.leasedJobIds, deadWorkers := r.deadWorkers, audit := r.audit)
  {
    hide AbandonEach;
    if ids == [] {
    } else {
      var n := |ids| - 1;
      AbandonFrame(b, ids[..n], now);
      var c := AbandonWorkers(b, ids[..n], now);
      if GoneSilent(c, ids[n], now) {
        AbandonEachFrame(c, c.leases.keys, ids[n], now - c.heartbeats[ids[n]].lastSeenAt, now);
      }
    }
  }

  lemma {:induction false} AbandonEachFrame(b: Broker, ids: seq<string>, w: string, age: real, now: real)
    requires forall id :: id in ids ==> id in b.leases.at
    ensures var r := AbandonEach(b, ids, w, age, now);
      r == b.(leases := r.leases, leasedJobIds := r.leasedJobIds, audit := r.audit)
  {
    if ids == [] {
    } else {
      AbandonEachFrame(b, ids[..|ids| - 1], w, age, now);
    }
  }

  ghost predicate CanBeMourned(b: Broker, entry: (string, seq<string>)) {
    entry.0 in b.heartbeats && forall id :: id in entry.1 ==> id in b.leases.at
  }

  /** What the log says of one dead worker: its leases one after the other, then the worker itself. */
  ghost function Obituary(b: Broker, entry: (string, seq<string>), now: real): seq<AuditEntry>
    requires CanBeMourned(b, entry)
  {
    LeaseLog(b.leases.at, entry.1, now - b.heartbeats[entry.0].lastSeenAt, now)
    + [AuditEntry(now, WorkerMarkedDead, Some(entry.0), None, None,
                  HeartbeatAge(now - b.heartbeats[entry.0].lastSeenAt))]
  }

  function LeaseLog(rows: map<string, LeaseRow>, ids: seq<string>, age: real, now: real): seq<AuditEntry>
    requires forall id :: id in ids ==> id in rows
  {
    seq(|ids|, k requires 0 <= k < |ids| =>
      var lease := rows[ids[k]].lease;
      AuditEntry(now, LeaseAbandoned, Some(lease.workerId), Some(lease.leaseId), Some(lease.jobId), HeartbeatAge(age)))
  }

  ghost function Obituaries(b: Broker, report: seq<(string, seq<string>)>, now: real): seq<AuditEntry>
    requires forall k :: 0 <= k < |report| ==> CanBeMourned(b, report[k])
  {
    if report == [] then []
    else Obituaries(b, report[..|report| - 1], now) + Obituary(b, report[|report| - 1], now)
  }

  lemma LeaseLogGrows(rows: map<string, LeaseRow>, ids: seq<string>, id: string, age: real, now: real)
    requires id in rows && forall x :: x in ids ==> x in rows
    ensures LeaseLog(rows, ids + [id], age, now) == LeaseLog(rows, ids, age, now) + LeaseLog(rows, [id], age, now)
  {
  }

  lemma AbandonOneLog(b: Broker, leaseId: string, w: string, age: real, now: real)
    requires leaseId in b.leases.at
    ensures var r := AbandonOne(b, leaseId, w, age, now);
      && r.audit == b.audit +
           (if HeldBy(b.leases.at[leaseId], w) then LeaseLog(b.leases.at, [leaseId], age, now) else [])
      && r.leasedJobIds ==
           (if HeldBy(b.leases.at[leaseId], w) then b.leasedJobIds - {b.leases.at[leaseId].lease.jobId}
            else b.leasedJobIds)
  {
  }

  lemma {:induction false} AbandonEachLog(b: Broker, ids: seq<string>, w: string, age: real, now: real)
    requires Distinct(ids) && forall id :: id in ids ==> id in b.leases.at
    ensures var held := HeldIds(b.leases.at, ids, w);
      && (forall id :: id in held ==> id in b.leases.at)
      && AbandonEach(b, ids, w, age, now).audit == b.audit + LeaseLog(b.leases.at, held, age, now)
  {
    hide AbandonOne, HeldBy;
    if ids == [] {
    } else {
      var n := |ids| - 1;
      DistinctPrefix(ids, n);
      AbandonEachLog(b, ids[..n], w, age, now);
      AbandonEachSpares(b, ids[..n], w, age, now, ids[n]);
      AbandonOneLog(AbandonEach(b, ids[..n], w, age, now), ids[n], w, age, now);
      LeaseLogGrows(b.leases.at, HeldIds(b.leases.at, ids[..n], w), ids[n], age, now);
    }
  }

  lemma {:induction false} AbandonEachFrees(b: Broker, ids: seq<string>, w: string, age: real, now: real)
    requires Distinct(ids) && forall id :: id in ids ==> id in b.leases.at
    ensures forall j :: j in AbandonEach(b, ids, w, age, now).leasedJobIds <==>
      && j in b.leasedJobIds
      && forall id :: id in ids && HeldBy(b.leases.at[id], w) ==> b.leases.at[id].lease.jobId != j
  {
    hide AbandonOne, HeldBy;
    if ids == [] {
    } else {
      var n := |ids| - 1;
      DistinctPrefix(ids, n);
      AbandonEachFrees(b, ids[..n], w, age, now);
      AbandonEachSpares(b, ids[..n], w, age, now, ids[n]);
      AbandonOneLog(AbandonEach(b, ids[..n], w, age, now), ids[n], w, age, now);
      assert ids == ids[..n] + [ids[n]];
    }
  }

  /** A sweep changes no lease's terms, so what is logged and freed can be read from the state before it. */
  lemma {:induction false} AbandonLog(b: Broker, ids: seq<string>, now: real)
    requires b.leases.Valid() && Distinct(ids)
    ensures var report := BrokerLoops.SilentHoldings(b, ids, now);
      && (forall k :: 0 <= k < |report| ==> CanBeMourned(b, report[k]))
      && AbandonWorkers(b, ids, now).audit == b.audit + Obituaries(b, report, now)
  {
    hide AbandonEach, AbandonWorker, HeldIds, BrokerLoops.Swept, GoneSilent, Obituary, CanBeMourned;
    if ids == [] {
    } else {
      var n := |ids| - 1;
      DistinctPrefix(ids, n);
      AbandonLog(b, ids[..n], now);
      BrokerLoops.AbandonWorkersExact(b, ids[..n], now);
      var c := AbandonWorkers(b, ids[..n], now);
      BrokerLoops.SameHoldings(b, ids[..n], now, c, ids[n]);
      WorkerLog(c, ids[n], now);
      SameTerms(b, ids[..n], now, c);
      var before := BrokerLoops.SilentHoldings(b, ids[..n], now);
      var entry := (ids[n], HeldIds(b.leases.at, b.leases.keys, ids[n]));
      assert BrokerLoops.SilentHoldings(b, ids, now) == if GoneSilent(c, ids[n], now) then before + [entry] else before;
      if GoneSilent(c, ids[n], now) {
        SameObituary(b, c, entry, now);
        OneMoreObituary(b, before, entry, now);
      }
    }
  }

  lemma {:induction false} WorkerLog(b: Broker, w: string, now: real)
    requires b.leases.Valid()
    ensures var r, entry := AbandonWorker(b, w, now), (w, HeldIds(b.leases.at, b.leases.keys, w));
      if GoneSilent(b, w, now) then CanBeMourned(b, entry) && r.audit == b.audit + Obituary(b, entry, now)
      else r == b
  {
    hide AbandonEach, HeldIds;
    if GoneSilent(b, w, now) {
      AbandonEachLog(b, b.leases.keys, w, now - b.heartbeats[w].lastSeenAt, now);
    }
  }

  lemma SameObituary(b: Broker, c: Broker, entry: (string, seq<string>), now: real)
    requires CanBeMourned(c, entry) && c.leases.at.Keys == b.leases.at.Keys && c.heartbeats == b.heartbeats
    requires forall id :: id in b.leases.at ==> c.leases.at[id].lease == b.leases.at[id].lease
    ensures CanBeMourned(b, entry) && Obituary(b, entry, now) == Obituary(c, entry, now)
  {
  }

  lemma OneMoreObituary(b: Broker, report: seq<(string, seq<string>)>, entry: (string, seq<string>), now: real)
    requires (forall k :: 0 <= k < |report| ==> CanBeMourned(b, report[k])) && CanBeMourned(b, entry)
    ensures Obituaries(b, report + [entry], now) == Obituaries(b, report, now) + Obituary(b, entry, now)
  {
    assert (report + [entry])[..|report|] == report;
  }

  lemma SameTerms(b: Broker, ids: seq<string>, now: real, c: Broker)
    requires c.leases.at.Keys == b.leases.at.Keys && BrokerLoops.Swept(b, ids, now, c)
    ensures forall id :: id in b.leases.at ==> c.leases.at[id].lease == b.leases.at[id].lease
  {
  }

  lemma {:induction false} AbandonFrees(b: Broker, ids: seq<string>, now: real)
    requires b.leases.Valid() && Distinct(ids)
    ensures forall j :: j in AbandonWorkers(b, ids, now).leasedJobIds <==>
      j in b.leasedJobIds && forall id :: id in b.leases.at && b.leases.at[id].lease.jobId == j ==>
        var row := b.leases.at[id];
        !(row.state.Issued? && row.lease.workerId in ids && GoneSilent(b, row.lease.workerId, now))
  {
    hide AbandonEach, HeldIds, GoneSilent;
    if ids == [] {
    } else {
      var n := |ids| - 1;
      DistinctPrefix(ids, n);
      AbandonFrees(b, ids[..n], now);
      BrokerLoops.AbandonWorkersExact(b, ids[..n], now);
      var c := AbandonWorkers(b, ids[..n], now);
      BrokerLoops.SameHoldings(b, ids[..n], now, c, ids[n]);
      WorkerFrees(c, ids[n], now);
      assert ids == ids[..n] + [ids[n]];
    }
  }

  lemma {:induction false} WorkerFrees(b: Broker, w: string, now: real)
    requires b.leases.Valid()
    ensures forall j :: j in AbandonWorker(b, w, now).leasedJobIds <==>
      j in b.leasedJobIds && (GoneSilent(b, w, now) ==>
        forall id :: id in b.leases.at && HeldBy(b.leases.at[id], w) ==> b.leases.at[id].lease.jobId != j)
  {
    hide AbandonEach, HeldIds, HeldBy;
    if GoneSilent(b, w, now) {
      AbandonEachFrees(b, b.leases.keys, w, now - b.heartbeats[w].lastSeenAt, now);
    }
  }

  /**
   One sweep for silent workers. Afterwards a worker is dead exactly when it was before, or it is
   registered and its last heartbeat is longer ago than the time to live. A lease is abandoned
   exactly when it was issued to a worker that died in this sweep. The report lists exactly these
   workers, in order of registration, each with exactly its leases.
   */
  lemma {:induction false} AbandonStaleWorkersLaw(m: Market, now: real)
    requires Sound(m) && m.broker.workers.Valid()
    ensures var (n, reply) := Step(m, AbandonStaleWorkers(now)); var b, c := m.broker, n.broker;
      && reply.Buried? && n.store == m.store && c.leases.keys == b.leases.keys && c.leases.at.Keys == b.leases.at.Keys
      && (forall w :: w in c.deadWorkers <==>
            (w in b.deadWorkers
             || (w in b.workers.at && w in b.heartbeats && now - b.heartbeats[w].lastSeenAt > b.heartbeatTtl)))
      && (forall id :: id in b.leases.at ==>
            var row := b.leases.at[id];
            c.leases.at[id] ==
              if row.state.Issued? && Dies(b, row.lease.workerId, now)
              then row.(state := Abandoned, failureReason := Some("worker_dead"), closedAt := Some(now)) else row)
      && (forall w :: w in Reported(reply.abandoned) <==> Dies(b, w, now))
      && InOrderOf(Reported(reply.abandoned), b.workers.keys) && Distinct(Reported(reply.abandoned))
      && (forall k :: 0 <= k < |reply.abandoned| ==> AllHeld(b, reply.abandoned[k].0, reply.abandoned[k].1))
      && (forall j :: j in c.leasedJobIds <==>
            j in b.leasedJobIds && forall id :: id in b.leases.at && b.leases.at[id].lease.jobId == j ==>
              !(b.leases.at[id].state.Issued? && Dies(b, b.leases.at[id].lease.workerId, now)))
      && (forall k :: 0 <= k < |reply.abandoned| ==> CanBeMourned(b, reply.abandoned[k]))
      && c.audit == b.audit + Obituaries(b, reply.abandoned, now)
      && c == b.(leases := c.leases, leasedJobIds := c.leasedJobIds, deadWorkers := c.deadWorkers, audit := c.audit)
  {
    hide AbandonWorkers, AbandonedBy, InOrderOf, AllHeld, BrokerLoops.SilentHoldings;
    var b := m.broker;
    BrokerLoops.AbandonStaleWorkersExact(b, now);
    HoldingsInOrder(b, b.workers.keys, now);
    AbandonFrame(b, b.workers.keys, now);
    AbandonLog(b, b.workers.keys, now);
    AbandonFrees(b, b.workers.keys, now);
  }

  /** A worker whose heartbeat was just accepted dies in a later sweep exactly when the heartbeat is too old by then. */
  lemma {:induction false} HeartbeatThenSweep(m: Market, beat: WorkerHeartbeat, t: real, now: real)
    requires Sound(m) && m.broker.workers.Valid() && Step(m, Heartbeat(beat, t)).1.Done?
    ensures beat.workerId in Step(Step(m, Heartbeat(beat, t)).0, AbandonStaleWorkers(now)).0.broker.deadWorkers
      <==> now - beat.lastSeenAt > m.broker.heartbeatTtl
  {
    hide Step;
    HeartbeatLaw(m, beat, t);
    AbandonStaleWorkersLaw(Step(m, Heartbeat(beat, t)).0, now);
  }
}
