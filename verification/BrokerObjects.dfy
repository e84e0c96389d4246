/** The lease broker as an object: registries are fields, lease records are updated in place. */
module BrokerObjects {
  import opened Wrappers
  import opened Dicts
  import opened Contracts
  import WorkerBroker
  import LiveStore
  import opened LiveStoreObjects

  class LeaseRecord {
    const lease: RolloutLease
    const job: RolloutJob
    var state: WorkerBroker.LeaseState
    var failureReason: Option<string>
    var submittedGroupId: Option<string>
    var closedAt: Option<real>

    constructor (lease: RolloutLease, job: RolloutJob)
      ensures Row() == WorkerBroker.LeaseRow(lease, job, WorkerBroker.Issued, None, None, None)
    {
      this.lease, this.job := lease, job;
      state, failureReason, submittedGroupId, closedAt := WorkerBroker.Issued, None, None, None;
    }

    ghost function Row(): WorkerBroker.LeaseRow
      reads this
    {
      WorkerBroker.LeaseRow(lease, job, state, failureReason, submittedGroupId, closedAt)
    }
  }

  class LocalWorkerBroker {
    const store: InMemoryLiveStore
    const leaseTtl: real
    const heartbeatTtl: real
    var workers: Dict<string, WorkerManifest>
    var heartbeats: map<string, WorkerHeartbeat>
    var deadWorkers: set<string>
    var jobs: Dict<string, RolloutJob>
    var leasedJobIds: set<string>
    var leases: Dict<string, LeaseRecord>
    var idempotencyKeys: map<string, string>
    var failures: seq<WorkerBroker.FailureNote>
    var audit: seq<WorkerBroker.AuditEntry>

    ghost predicate Valid()
      reads this, leases.at.Values
    {
      workers.Valid() && jobs.Valid() && RecordsApart()
    }

    ghost predicate RecordsApart()
      reads this`leases
    {
      leases.Valid() && forall x, y :: x in leases.at && y in leases.at && x != y ==> leases.at[x] != leases.at[y]
    }

    /** The whole state of the broker as a value. */
    ghost function Model(): WorkerBroker.Broker
      reads this, leases.at.Values
    {
      WorkerBroker.Broker(leaseTtl, heartbeatTtl, workers, heartbeats, deadWorkers, jobs, leasedJobIds, Rows(),
                          idempotencyKeys, failures, audit)
    }

    ghost function Rows(): Dict<string, WorkerBroker.LeaseRow>
      reads this`leases, leases.at.Values
    {
      Dict(leases.keys, map id | id in leases.at :: leases.at[id].Row())
    }

    constructor (store: InMemoryLiveStore, leaseTtl: real, heartbeatTtl: real)
      ensures Valid() && Model() == WorkerBroker.EmptyBroker(leaseTtl, heartbeatTtl)
      ensures this.store == store && leases.at.Values == {}
    {
      this.store, this.leaseTtl, this.heartbeatTtl := store, leaseTtl, heartbeatTtl;
      workers, heartbeats, deadWorkers, jobs := EmptyDict(), map[], {}, EmptyDict();
      leasedJobIds, leases, idempotencyKeys, failures, audit := {}, EmptyDict(), map[], [], [];
    }

    // ----- what changing one lease record means for the state as a whole

    twostate lemma RowChanged(id: string)
      requires leases == old(leases) && id in leases.at
      requires forall x :: x in leases.at && x != id ==> leases.at[x].Row() == old(leases.at[x].Row())
      ensures Rows() == old(Rows()).Replace(id, leases.at[id].Row())
    {
    }

    twostate lemma RowAdded(id: string, new record: LeaseRecord)
      requires id !in old(leases.at) && leases == old(leases).Put(id, record)
      requires forall x :: x in old(leases.at) ==> old(leases.at[x]).Row() == old(leases.at[x].Row())
      ensures Rows() == old(Rows()).Put(id, record.Row())
    {
      var before, after := old(Rows()), Rows();
      forall x | x in leases.at
        ensures after.at[x] == if x == id then record.Row() else before.at[x]
      {
      }
    }

    twostate lemma RecordsGrow(id: string, new record: LeaseRecord)
      requires old(RecordsApart()) && id !in old(leases.at) && leases == old(leases).Put(id, record)
      requires record !in old(leases.at.Values)
      ensures RecordsApart() && leases.at.Values == old(leases.at.Values) + {record}
    {
      assert leases.at[id] == record;
      assert forall x :: x in old(leases.at) ==> leases.at[x] == old(leases.at[x]) && leases.at[x] in leases.at.Values;
    }

    /** `_record`: append one entry to the audit log. */
    method Append(e: WorkerBroker.AuditEntry)
      requires Valid()
      modifies `audit
      ensures Valid() && Model() == WorkerBroker.Log(old(Model()), e)
    {
      audit := audit + [e];
      assert Rows() == old(Rows());
    }

    /** The four fields of a lease record that closing it sets. */
    method Stamp(record: LeaseRecord, st: WorkerBroker.LeaseState, reason: Option<string>, group: Option<string>,
                 now: real, ghost id: string)
      requires Valid() && id in leases.at && leases.at[id] == record
      modifies record
      ensures Valid()
      ensures record.Row() == old(record.Row()).(state := st, failureReason := reason, submittedGroupId := group,
                                                 closedAt := Some(now))
      ensures id in old(Rows()).at && old(Rows()).at[id] == old(record.Row())
      ensures Rows() == old(Rows()).Replace(id, record.Row())
    {
      record.state := st;
      record.failureReason := reason;
      record.submittedGroupId := group;
      record.closedAt := Some(now);
      RowChanged(id);
    }

    /**
     The field updates with which every closing operation of the original ends: stamp the record,
     free its job unless the lease was submitted, append the audit entry.
     */
    method Close(record: LeaseRecord, st: WorkerBroker.LeaseState, reason: Option<string>, group: Option<string>,
                 detail: WorkerBroker.Detail, now: real, ghost id: string)
      requires Valid() && id in leases.at && leases.at[id] == record && !st.Issued?
      modifies `leasedJobIds, `audit, record
      ensures Valid() && id in old(Model()).leases.at
      ensures Model() == WorkerBroker.Close(old(Model()), id, st, reason, group, detail, now)
    {
      hide Rows, RecordsApart;
      Stamp(record, st, reason, group, now, id);
      if !st.Submitted? {
        leasedJobIds := leasedJobIds - {record.lease.jobId};
      }
      Append(WorkerBroker.LeaseEntry(WorkerBroker.ClosingEvent(st), record.lease, detail, now));
    }

    lemma LeaseAt(id: string)
      requires Valid()
      ensures Model().leases.Valid() && Model().leases.keys == leases.keys
      ensures id in leases.keys <==> id in leases.at
      ensures id in leases.at <==> id in Model().leases.at
      ensures id in leases.at ==> Model().leases.at[id] == leases.at[id].Row() && leases.at[id] in leases.at.Values
    {
    }

    // ----- registration

    method RegisterWorker(manifest: WorkerManifest, now: real)
      requires Valid()
      modifies this
      ensures Valid() && leases == old(leases)
      ensures Model() == WorkerBroker.RegisterWorker(old(Model()), manifest, now)
    {
      workers := workers.Put(manifest.workerId, manifest);
      deadWorkers := deadWorkers - {manifest.workerId};
      assert Rows() == old(Rows());
      Append(WorkerBroker.WorkerEntry(WorkerBroker.WorkerRegistered, manifest.workerId, WorkerBroker.NoDetail, now));
    }

    method Heartbeat(beat: WorkerHeartbeat, now: real) returns (r: Result<()>)
      requires Valid()
      modifies this
      ensures Valid() && leases == old(leases)
      ensures match WorkerBroker.Heartbeat(old(Model()), beat, now) {
        case Ok(b) => r.Ok? && Model() == b
        case Raised(e) => r == Raised(e) && Model() == old(Model())
      }
    {
      if beat.workerId !in workers.at {
        return Raised(WorkerNotRegistered);
      }
      var revived := beat.workerId in deadWorkers;
      heartbeats := heartbeats[beat.workerId := beat];
      deadWorkers := deadWorkers - {beat.workerId};
      assert Rows() == old(Rows());
      if revived {
        Append(WorkerBroker.WorkerEntry(WorkerBroker.WorkerRevived, beat.workerId, WorkerBroker.NoDetail, now));
      }
      r := Ok(());
    }

    method SubmitJob(job: RolloutJob, now: real)
      requires Valid()
      modifies this
      ensures Valid() && leases == old(leases)
      ensures Model() == WorkerBroker.SubmitJob(old(Model()), job, now)
    {
      jobs := jobs.Put(job.jobId, job);
      assert Rows() == old(Rows());
      Append(WorkerBroker.AuditEntry(now, WorkerBroker.JobEnqueued, None, None, Some(job.jobId),
                                     WorkerBroker.NoDetail));
    }

    // ----- leases

    /** `leaseId` and `assignmentId` are the drawn uuids; a uuid does not collide with one drawn before. */
    method AcquireLease(workerId: string, leaseId: string, assignmentId: string, now: real)
      returns (r: Result<Option<RolloutLease>>)
      requires Valid() && leaseId !in leases.at
      modifies this
      ensures Valid() && fresh(leases.at.Values - old(leases.at.Values))
      ensures match WorkerBroker.AcquireLease(old(Model()), workerId, leaseId, assignmentId, now) {
        case Ok((b, lease)) => r == Ok(lease) && Model() == b
        case Raised(e) => r == Raised(e) && Model() == old(Model())
      }
    {
      hide WorkerBroker.NextJob;
      if workerId !in workers.at {
        return Raised(WorkerNotRegistered);
      }
      if workerId in deadWorkers {
        return Raised(WorkerNotRegistered);
      }
      var next := FirstWaiting(workers.at[workerId]);
      if next.None? {
        return Ok(None);
      }
      var job := jobs.at[next.value];
      var lease := WorkerBroker.LeaseFor(job, workerId, leaseId, assignmentId, now, leaseTtl);
      if !lease.Valid() {
        return Raised(InvalidValue);
      }
      r := Record(lease, job, now);
    }

    /** The loop of `acquire_lease` over the queue. */
    method FirstWaiting(manifest: WorkerManifest) returns (next: Option<string>)
      requires Valid()
      ensures next == WorkerBroker.NextJob(Model(), jobs.keys, manifest)
      ensures next.Some? ==> next.value in jobs.at
    {
      for i := 0 to |jobs.keys|
        invariant WorkerBroker.NextJob(Model(), jobs.keys, manifest) ==
                  WorkerBroker.NextJob(Model(), jobs.keys[i..], manifest)
      {
        var jobId := jobs.keys[i];
        assert jobs.keys[i..][1..] == jobs.keys[i + 1..];
        if jobId in leasedJobIds { continue; }
        if !WorkerBroker.CapabilitiesMatch(jobs.at[jobId], manifest) { continue; }
        return Some(jobId);
      }
      next := None;
    }

    method AddRecord(lease: RolloutLease, job: RolloutJob)
      requires RecordsApart() && lease.leaseId !in leases.at
      modifies `leases
      ensures RecordsApart() && fresh(leases.at.Values - old(leases.at.Values))
      ensures Rows() == old(Rows()).Put(lease.leaseId,
                                        WorkerBroker.LeaseRow(lease, job, WorkerBroker.Issued, None, None, None))
    {
      var record := new LeaseRecord(lease, job);
      leases := leases.Put(lease.leaseId, record);
      RowAdded(lease.leaseId, record);
      RecordsGrow(lease.leaseId, record);
    }

    /** The bookkeeping of `acquire_lease` for the lease it found. */
    method Record(lease: RolloutLease, job: RolloutJob, now: real) returns (r: Result<Option<RolloutLease>>)
      requires Valid() && lease.leaseId !in leases.at
      modifies this
      ensures Valid() && fresh(leases.at.Values - old(leases.at.Values)) && r == Ok(Some(lease))
      ensures Model() == WorkerBroker.IssueLease(old(Model()), lease, job, now)
    {
      hide Rows;
      leasedJobIds := leasedJobIds + {lease.jobId};
      AddRecord(lease, job);
      Append(WorkerBroker.LeaseEntry(WorkerBroker.LeaseIssued, lease, WorkerBroker.NoDetail, now));
      r := Ok(Some(lease));
    }

    method SubmitGroup(workerId: string, leaseId: string, group: SampleGroup, decision: GroupDecision, now: real)
      returns (r: Result<StoredGroup>)
      requires Valid() && store.Valid()
      modifies this, leases.at.Values, store
      ensures Valid() && store.Valid() && leases == old(leases)
      ensures match WorkerBroker.SubmitGroup(old(Model()), old(store.Model()), workerId, leaseId, group, decision,
                                             now) {
        case Ok((b, s)) => r.Ok? && fresh(r.value) && Model() == b && store.Model() == s
          && store.records.at.Values == old(store.records.at.Values) + {r.value}
        case Raised(e) => r == Raised(e) && Model() == old(Model()) && store.Model() == old(store.Model())
      }
    {
      hide Model, Valid, Rows, WorkerBroker.Close, LiveStore.Submit;
      SameRegistries();
      LeaseAt(leaseId);
      if workerId !in workers.at {
        return Raised(WorkerNotRegistered);
      }
      if leaseId !in leases.at {
        return Raised(LeaseConflict);
      }
      var record := leases.at[leaseId];
      if record.lease.workerId != workerId {
        return Raised(LeaseConflict);
      }
      if !record.state.Issued? {
        return Raised(LeaseConflict);
      }
      var key := record.lease.idempotencyKey;
      if key in idempotencyKeys && idempotencyKeys[key] != group.groupId {
        return Raised(LeaseConflict);
      }
      r := store.Submit(group, decision);
      if r.Raised? {
        return;
      }
      BindKey(key, group.groupId);
      LeaseAt(leaseId);
      Close(record, WorkerBroker.Submitted, record.failureReason, Some(group.groupId),
            WorkerBroker.GroupRef(group.groupId), now, leaseId);
    }

    method BindKey(key: string, groupId: string)
      requires Valid()
      modifies `idempotencyKeys
      ensures Valid() && Model() == old(Model()).(idempotencyKeys := old(idempotencyKeys)[key := groupId])
    {
      idempotencyKeys := idempotencyKeys[key := groupId];
      assert Rows() == old(Rows());
    }

    method NoteFailure(note: WorkerBroker.FailureNote)
      requires Valid()
      modifies `failures
      ensures Valid() && Model() == old(Model()).(failures := old(Model()).failures + [note])
    {
      failures := failures + [note];
      assert Rows() == old(Rows());
    }

    method ReportFailure(workerId: string, leaseId: string, reason: string, detail: Option<string>, now: real)
      returns (r: Result<()>)
      requires Valid()
      modifies this, leases.at.Values
      ensures Valid() && leases == old(leases)
      ensures match WorkerBroker.ReportFailure(old(Model()), workerId, leaseId, reason, detail, now) {
        case Ok(b) => r.Ok? && Model() == b
        case Raised(e) => r == Raised(e) && Model() == old(Model())
      }
    {
      hide Model, Valid, Rows, WorkerBroker.Close;
      SameRegistries();
      LeaseAt(leaseId);
      if workerId !in workers.at {
        return Raised(WorkerNotRegistered);
      }
      if leaseId !in leases.at || leases.at[leaseId].lease.workerId != workerId {
        return Raised(LeaseConflict);
      }
      var record := leases.at[leaseId];
      if !record.state.Issued? {
        return Raised(LeaseConflict);
      }
      CloseKeepsFailures(leaseId, reason, detail, now);
      Close(record, WorkerBroker.Failed, Some(reason), record.submittedGroupId,
            WorkerBroker.FailureText(WorkerBroker.FailureLine(reason, detail)), now, leaseId);
      NoteFailure(WorkerBroker.FailureNote(workerId, leaseId, record.lease.jobId, reason,
                                           if detail.Some? then detail.value else ""));
      r := Ok(());
    }

    lemma CloseKeepsFailures(leaseId: string, reason: string, detail: Option<string>, now: real)
      requires Valid() && leaseId in Model().leases.at
      ensures WorkerBroker.Close(Model(), leaseId, WorkerBroker.Failed, Some(reason),
                                 Model().leases.at[leaseId].submittedGroupId,
                                 WorkerBroker.FailureText(WorkerBroker.FailureLine(reason, detail)), now).failures
        == Model().failures
    {
    }

    method ReapExpired(now: real) returns (expired: seq<string>)
      requires Valid()
      modifies this, leases.at.Values
      ensures Valid() && leases == old(leases)
      ensures (Model(), expired) == WorkerBroker.ReapExpired(old(Model()), now)
    {
      hide Model, Valid, Rows, WorkerBroker.Close;
      LeaseAt("");
      ghost var m := Model();
      expired := [];
      for i := 0 to |leases.keys|
        invariant Valid() && leases == old(leases)
        invariant Model() == WorkerBroker.ReapEach(m, m.leases.keys[..i], now)
        invariant expired == WorkerBroker.LapsedIds(m.leases.at, m.leases.keys[..i], now)
      {
        var leaseId := leases.keys[i];
        assert m.leases.keys[..i + 1][..i] == m.leases.keys[..i];
        DistinctPrefix(m.leases.keys, i);
        WorkerBroker.ReapEachSpares(m, m.leases.keys[..i], now, leaseId);
        LeaseAt(leaseId);
        var record := leases.at[leaseId];
        if record.state.Issued? && record.lease.IsExpired(now) {
          Close(record, WorkerBroker.Expired, record.failureReason, record.submittedGroupId, WorkerBroker.NoDetail,
                now, leaseId);
          expired := expired + [leaseId];
        }
      }
      assert m.leases.keys[..|m.leases.keys|] == m.leases.keys;
    }

    /** The outer loop turns over the workers, `AbandonLeasesOf` over the leases of one of them. */
    method AbandonStaleWorkers(now: real) returns (abandoned: seq<(string, seq<string>)>)
      requires Valid()
      modifies this, leases.at.Values
      ensures Valid() && leases == old(leases)
      ensures (Model(), abandoned) == WorkerBroker.AbandonStaleWorkers(old(Model()), now)
    {
      hide Model, Valid, Rows, WorkerBroker.AbandonEach, WorkerBroker.HeldIds;
      LeaseAt("");
      SameRegistries();
      ghost var m := Model();
      abandoned := [];
      for i := 0 to |workers.keys|
        invariant Valid() && leases == old(leases) && workers == old(workers) && workers.keys == m.workers.keys
        invariant Model() == WorkerBroker.AbandonWorkers(m, m.workers.keys[..i], now)
        invariant abandoned == WorkerBroker.AbandonedBy(m, m.workers.keys[..i], now)
      {
        var workerId := workers.keys[i];
        assert m.workers.keys[..i + 1][..i] == m.workers.keys[..i];
        SameRegistries();
        LeaseAt("");
        if workerId in deadWorkers { continue; }
        if workerId !in heartbeats { continue; }
        var age := now - heartbeats[workerId].lastSeenAt;
        if age <= heartbeatTtl { continue; }
        var leaseIds := AbandonLeasesOf(workerId, age, now);
        abandoned := abandoned + [(workerId, leaseIds)];
      }
      assert m.workers.keys[..|m.workers.keys|] == m.workers.keys;
    }

    lemma SameRegistries()
      requires Valid()
      ensures Model().workers == workers && Model().deadWorkers == deadWorkers && Model().heartbeats == heartbeats
      ensures Model().heartbeatTtl == heartbeatTtl && Model().leases.Valid()
      ensures Model().idempotencyKeys == idempotencyKeys
    {
    }

    /** Marks one worker dead and closes the leases it holds. */
    method AbandonLeasesOf(workerId: string, age: real, now: real) returns (leaseIds: seq<string>)
      requires Valid()
      modifies this, leases.at.Values
      ensures Valid() && leases == old(leases) && workers == old(workers) && old(Model()).leases.Valid()
      ensures Model() == WorkerBroker.MarkDead(
        WorkerBroker.AbandonEach(old(Model()), old(Model()).leases.keys, workerId, age, now), workerId, age, now)
      ensures leaseIds == WorkerBroker.HeldIds(old(Model()).leases.at, old(Model()).leases.keys, workerId)
    {
      hide Model, Valid, Rows, WorkerBroker.AbandonEach, WorkerBroker.HeldIds;
      LeaseAt("");
      ghost var m := Model();
      AddDead(workerId);
      WorkerBroker.AbandonEachIgnoresDead(m, m.deadWorkers + {workerId}, m.leases.keys, workerId, age, now);
      leaseIds := AbandonLoop(workerId, age, now);
      Append(WorkerBroker.WorkerEntry(WorkerBroker.WorkerMarkedDead, workerId, WorkerBroker.HeartbeatAge(age), now));
    }

    method AddDead(workerId: string)
      requires Valid()
      modifies `deadWorkers
      ensures Valid() && Model() == old(Model()).(deadWorkers := old(Model()).deadWorkers + {workerId})
    {
      deadWorkers := deadWorkers + {workerId};
      assert Rows() == old(Rows());
    }

    /** The inner loop of `abandon_stale_workers`. */
    method AbandonLoop(workerId: string, age: real, now: real) returns (leaseIds: seq<string>)
      requires Valid()
      modifies `leasedJobIds, `audit, leases.at.Values
      ensures Valid() && old(Model()).leases.Valid()
      ensures Model() == WorkerBroker.AbandonEach(old(Model()), old(Model()).leases.keys, workerId, age, now)
      ensures leaseIds == WorkerBroker.HeldIds(old(Model()).leases.at, old(Model()).leases.keys, workerId)
    {
      hide Model, Valid, Rows, WorkerBroker.Close;
      LeaseAt("");
      ghost var m := Model();
      leaseIds := [];
      for j := 0 to |leases.keys|
        invariant Valid()
        invariant Model() == WorkerBroker.AbandonEach(m, m.leases.keys[..j], workerId, age, now)
        invariant leaseIds == WorkerBroker.HeldIds(m.leases.at, m.leases.keys[..j], workerId)
      {
        var leaseId := leases.keys[j];
        assert m.leases.keys[..j + 1][..j] == m.leases.keys[..j];
        DistinctPrefix(m.leases.keys, j);
        WorkerBroker.AbandonEachSpares(m, m.leases.keys[..j], workerId, age, now, leaseId);
        LeaseAt(leaseId);
        var record := leases.at[leaseId];
        if record.lease.workerId != workerId { continue; }
        if !record.state.Issued? { continue; }
        Close(record, WorkerBroker.Abandoned, Some("worker_dead"), record.submittedGroupId,
              WorkerBroker.HeartbeatAge(age), now, leaseId);
        leaseIds := leaseIds + [leaseId];
      }
      assert m.leases.keys[..|m.leases.keys|] == m.leases.keys;
    }
  }
}
