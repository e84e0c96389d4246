/** What every broker step keeps: lease discipline, the accounts, and the audit log as an event source. */
module BrokerInvariants {
  import opened Wrappers
  import opened Dicts
  import opened Contracts
  import opened WorkerBroker
  import LiveStore

  // ----- the invariant

  ghost predicate WellFormed(b: Broker) {
    && b.workers.Valid() && b.jobs.Valid() && b.leases.Valid()
    && b.deadWorkers <= b.workers.at.Keys
    && (forall id :: id in b.jobs.at ==> b.jobs.at[id].jobId == id)
    && (forall id :: id in b.leases.at ==>
          && b.leases.at[id].lease.leaseId == id
          && b.leases.at[id].lease.jobId in b.jobs.at
          && b.leases.at[id].lease.workerId in b.workers.at)
  }

  predicate Live(row: LeaseRow) {
    row.state.Issued? || row.state.Submitted?
  }

  predicate Claims(b: Broker, id: string, jobId: string) {
    id in b.leases.at && Live(b.leases.at[id]) && b.leases.at[id].lease.jobId == jobId
  }

  /** A job is marked as leased exactly when one lease on it, and only one, is issued or submitted. */
  ghost predicate LeaseDiscipline(b: Broker) {
    && (forall j :: j in b.leasedJobIds ==> exists id :: Claims(b, id, j))
    && (forall j, id :: Claims(b, id, j) ==> j in b.leasedJobIds)
    && (forall j, x, y :: Claims(b, x, j) && Claims(b, y, j) ==> x == y)
  }

  ghost predicate Stamped(b: Broker) {
    forall id :: id in b.leases.at ==>
      && (b.leases.at[id].closedAt.None? <==> b.leases.at[id].state.Issued?)
      && (b.leases.at[id].submittedGroupId.Some? <==> b.leases.at[id].state.Submitted?)
  }

  ghost predicate DeadHoldNothing(b: Broker) {
    forall id :: id in b.leases.at && b.leases.at[id].lease.workerId in b.deadWorkers ==>
      !b.leases.at[id].state.Issued?
  }

  function RowsIn(rows: map<string, LeaseRow>, state: LeaseState): set<string> {
    set id | id in rows && rows[id].state == state
  }

  function InState(b: Broker, state: LeaseState): set<string> {
    RowsIn(b.leases.at, state)
  }

  function CountEvents(audit: seq<AuditEntry>, event: Event): nat {
    if audit == [] then 0
    else CountEvents(audit[..|audit| - 1], event) + if audit[|audit| - 1].event == event then 1 else 0
  }

  ghost predicate Accounts(b: Broker) {
    && CountEvents(b.audit, LeaseIssued) == |b.leases.keys|
    && (forall st: LeaseState :: !st.Issued? ==> CountEvents(b.audit, ClosingEvent(st)) == |InState(b, st)|)
    && |b.leasedJobIds| == |InState(b, Issued)| + |InState(b, Submitted)|
  }

  // ----- the audit log read back

  datatype LeaseFacts = LeaseFacts(workerId: string, jobId: string, state: LeaseState, group: Option<string>)

  datatype Ledger = Ledger(
    workers: seq<string>,
    dead: set<string>,
    jobs: seq<string>,
    leased: set<string>,
    leases: Dict<string, LeaseFacts>)

  function Name(id: Option<string>): string {
    if id.Some? then id.value else ""
  }

  function CloseInLedger(l: Ledger, e: AuditEntry, state: LeaseState): Ledger {
    var id := Name(e.leaseId);
    if id !in l.leases.at then l
    else
      l.(leases := l.leases.Put(id, l.leases.at[id].(
                     state := state,
                     group := if e.detail.GroupRef? then Some(e.detail.groupId) else None)),
         leased := if state.Submitted? then l.leased else l.leased - {Name(e.jobId)})
  }

  /** One audit entry, read as an event. */
  function Absorb(l: Ledger, e: AuditEntry): Ledger {
    match e.event
    case WorkerRegistered =>
      l.(workers := Enroll(l.workers, Name(e.workerId)), dead := l.dead - {Name(e.workerId)})
    case WorkerRevived => l.(dead := l.dead - {Name(e.workerId)})
    case WorkerMarkedDead => l.(dead := l.dead + {Name(e.workerId)})
    case JobEnqueued => l.(jobs := Enroll(l.jobs, Name(e.jobId)))
    case LeaseIssued =>
      l.(leases := l.leases.Put(Name(e.leaseId), LeaseFacts(Name(e.workerId), Name(e.jobId), Issued, None)),
         leased := l.leased + {Name(e.jobId)})
    case LeaseSubmitted => CloseInLedger(l, e, Submitted)
    case LeaseFailed => CloseInLedger(l, e, Failed)
    case LeaseExpired => CloseInLedger(l, e, Expired)
    case LeaseAbandoned => CloseInLedger(l, e, Abandoned)
  }

  function Rebuild(audit: seq<AuditEntry>): Ledger {
    if audit == [] then Ledger([], {}, [], {}, EmptyDict())
    else Absorb(Rebuild(audit[..|audit| - 1]), audit[|audit| - 1])
  }

  function Facts(row: LeaseRow): LeaseFacts {
    LeaseFacts(row.lease.workerId, row.lease.jobId, row.state, row.submittedGroupId)
  }

  function Observe(b: Broker): Ledger {
    Ledger(b.workers.keys, b.deadWorkers, b.jobs.keys, b.leasedJobIds,
           Dict(b.leases.keys, map id | id in b.leases.at :: Facts(b.leases.at[id])))
  }

  /** A failure as the audit log tells it: worker, lease, job and the rendered reason. */
  datatype FailureFact = FailureFact(workerId: string, leaseId: string, jobId: string, text: string)

  function FailureEvents(audit: seq<AuditEntry>): seq<FailureFact> {
    if audit == [] then []
    else
      var e := audit[|audit| - 1];
      FailureEvents(audit[..|audit| - 1]) +
      if e.event.LeaseFailed? && e.detail.FailureText?
      then [FailureFact(Name(e.workerId), Name(e.leaseId), Name(e.jobId), e.detail.text)]
      else []
  }

  function NotesAsEvents(notes: seq<FailureNote>): (r: seq<FailureFact>) {
    if notes == [] then []
    else
      var n := notes[|notes| - 1];
      NotesAsEvents(notes[..|notes| - 1]) + [FailureFact(n.workerId, n.leaseId, n.jobId, n.reason + ": " + n.detail)]
  }

  /** The audit log is a faithful event source: reading it back from nothing gives the state. */
  ghost predicate AuditFaithful(b: Broker) {
    Rebuild(b.audit) == Observe(b) && FailureEvents(b.audit) == NotesAsEvents(b.failures)
  }

  ghost predicate Inv(b: Broker) {
    && WellFormed(b) && LeaseDiscipline(b) && Stamped(b) && DeadHoldNothing(b) && Accounts(b) && AuditFaithful(b)
  }

  // ----- single changes

  lemma {:induction false} LogAppends(audit: seq<AuditEntry>, e: AuditEntry)
    ensures Rebuild(audit + [e]) == Absorb(Rebuild(audit), e)
    ensures FailureEvents(audit + [e]) == FailureEvents(audit) +
      if e.event.LeaseFailed? && e.detail.FailureText?
      then [FailureFact(Name(e.workerId), Name(e.leaseId), Name(e.jobId), e.detail.text)] else []
  {
  }

  lemma {:induction false} LogCounts(audit: seq<AuditEntry>, e: AuditEntry, event: Event)
    ensures CountEvents(audit + [e], event) == CountEvents(audit, event) + (if e.event == event then 1 else 0)
  {
  }

  lemma {:induction false} EmptyInv(leaseTtl: real, heartbeatTtl: real)
    ensures Inv(EmptyBroker(leaseTtl, heartbeatTtl))
  {
  }

  /** A change that leaves the leases alone and logs at most one entry, which is not about a lease. */
  ghost predicate LeasesUntouched(b: Broker, r: Broker) {
    && b.leases == r.leases && b.leasedJobIds == r.leasedJobIds && b.failures == r.failures
    && (r.audit == b.audit || (
          && r.audit != [] && r.audit[..|r.audit| - 1] == b.audit
          && r.audit[|r.audit| - 1].event in {WorkerRegistered, WorkerRevived, WorkerMarkedDead, JobEnqueued}))
  }

  lemma {:induction false} UntouchedDiscipline(b: Broker, r: Broker)
    requires LeaseDiscipline(b) && LeasesUntouched(b, r)
    ensures LeaseDiscipline(r)
  {
    assert forall j, id :: Claims(r, id, j) <==> Claims(b, id, j);
    forall j | j in r.leasedJobIds ensures exists id :: Claims(r, id, j) {
      var id :| Claims(b, id, j);
      assert Claims(r, id, j);
    }
  }

  lemma {:induction false} UntouchedAccounts(b: Broker, r: Broker)
    requires Accounts(b) && LeasesUntouched(b, r)
    ensures Accounts(r)
  {
  }

  lemma {:induction false} UntouchedFailures(b: Broker, r: Broker)
    requires FailureEvents(b.audit) == NotesAsEvents(b.failures) && LeasesUntouched(b, r)
    ensures FailureEvents(r.audit) == NotesAsEvents(r.failures)
  {
  }

  lemma {:induction false} UntouchedInv(b: Broker, r: Broker)
    requires Inv(b) && LeasesUntouched(b, r)
    requires WellFormed(r) && DeadHoldNothing(r) && Rebuild(r.audit) == Observe(r)
    ensures Inv(r)
  {
    UntouchedDiscipline(b, r);
    UntouchedAccounts(b, r);
    UntouchedFailures(b, r);
  }

  lemma {:induction false} RegisterWorkerInv(b: Broker, manifest: WorkerManifest, now: real)
    requires Inv(b)
    ensures Inv(RegisterWorker(b, manifest, now))
  {
    LogAppends(b.audit, WorkerEntry(WorkerRegistered, manifest.workerId, NoDetail, now));
    UntouchedInv(b, RegisterWorker(b, manifest, now));
  }

  lemma {:induction false} HeartbeatInv(b: Broker, beat: WorkerHeartbeat, now: real)
    requires Inv(b) && Heartbeat(b, beat, now).Ok?
    ensures Inv(Heartbeat(b, beat, now).value)
  {
    var alive := b.(heartbeats := b.heartbeats[beat.workerId := beat]);
    UntouchedInv(b, alive);
    if beat.workerId in b.deadWorkers {
      ReviveInv(alive, beat.workerId, now);
    } else {
      assert Heartbeat(b, beat, now).value == alive.(deadWorkers := b.deadWorkers - {beat.workerId});
      assert b.deadWorkers - {beat.workerId} == b.deadWorkers;
    }
  }

  lemma {:induction false} ReviveInv(b: Broker, workerId: string, now: real)
    requires Inv(b)
    ensures Inv(Log(b.(deadWorkers := b.deadWorkers - {workerId}), WorkerEntry(WorkerRevived, workerId, NoDetail, now)))
  {
    var e := WorkerEntry(WorkerRevived, workerId, NoDetail, now);
    LogAppends(b.audit, e);
    UntouchedInv(b, Log(b.(deadWorkers := b.deadWorkers - {workerId}), e));
  }

  lemma {:induction false} SubmitJobInv(b: Broker, job: RolloutJob, now: real)
    requires Inv(b)
    ensures Inv(SubmitJob(b, job, now))
  {
    LogAppends(b.audit, AuditEntry(now, JobEnqueued, None, None, Some(job.jobId), NoDetail));
    UntouchedInv(b, SubmitJob(b, job, now));
  }

  lemma {:induction false} MarkDeadInv(b: Broker, workerId: string, age: real, now: real)
    requires Inv(b) && workerId in b.workers.at
    requires forall id :: id in b.leases.at ==> !HeldBy(b.leases.at[id], workerId)
    ensures Inv(MarkDead(b, workerId, age, now))
  {
    LogAppends(b.audit, WorkerEntry(WorkerMarkedDead, workerId, HeartbeatAge(age), now));
    UntouchedInv(b, MarkDead(b, workerId, age, now));
  }

  lemma {:induction false} BindKeyInv(b: Broker, keys: map<string, string>)
    requires Inv(b)
    ensures Inv(b.(idempotencyKeys := keys))
  {
    UntouchedInv(b, b.(idempotencyKeys := keys));
  }

  // ----- issuing

  lemma {:induction false} IssueDiscipline(b: Broker, lease: RolloutLease, job: RolloutJob, now: real)
    requires LeaseDiscipline(b) && lease.leaseId !in b.leases.at && lease.jobId !in b.leasedJobIds
    ensures LeaseDiscipline(IssueLease(b, lease, job, now))
  {
    var r := IssueLease(b, lease, job, now);
    forall j, id
      ensures Claims(r, id, j) <==> Claims(b, id, j) || (id == lease.leaseId && j == lease.jobId)
    {
    }
    forall j | j in r.leasedJobIds ensures exists id :: Claims(r, id, j) {
      if j == lease.jobId {
        assert Claims(r, lease.leaseId, j);
      } else {
        var id :| Claims(b, id, j);
        assert Claims(r, id, j);
      }
    }
  }

  lemma {:induction false} NewRowCounts(rows: map<string, LeaseRow>, id: string, row: LeaseRow, st: LeaseState)
    requires id !in rows
    ensures |RowsIn(rows[id := row], st)| == |RowsIn(rows, st)| + (if st == row.state then 1 else 0)
  {
    var before := RowsIn(rows, st);
    assert RowsIn(rows[id := row], st) == if st == row.state then before + {id} else before;
  }

  lemma {:induction false} IssueAccounts(b: Broker, lease: RolloutLease, job: RolloutJob, now: real)
    requires Accounts(b) && lease.leaseId !in b.leases.at && lease.leaseId !in b.leases.keys
    requires lease.jobId !in b.leasedJobIds
    ensures Accounts(IssueLease(b, lease, job, now))
  {
    hide RowsIn, CountEvents;
    var r := IssueLease(b, lease, job, now);
    var e := LeaseEntry(LeaseIssued, lease, NoDetail, now);
    var row := LeaseRow(lease, job, Issued, None, None, None);
    assert r.leases.at == b.leases.at[lease.leaseId := row];
    LogCounts(b.audit, e, LeaseIssued);
    NewRowCounts(b.leases.at, lease.leaseId, row, Issued);
    NewRowCounts(b.leases.at, lease.leaseId, row, Submitted);
    forall st: LeaseState | !st.Issued?
      ensures CountEvents(r.audit, ClosingEvent(st)) == |InState(r, st)|
    {
      LogCounts(b.audit, e, ClosingEvent(st));
      NewRowCounts(b.leases.at, lease.leaseId, row, st);
    }
  }

  lemma {:induction false} IssueAudit(b: Broker, lease: RolloutLease, job: RolloutJob, now: real)
    requires AuditFaithful(b)
    ensures AuditFaithful(IssueLease(b, lease, job, now))
  {
    var r := IssueLease(b, lease, job, now);
    var e := LeaseEntry(LeaseIssued, lease, NoDetail, now);
    LogAppends(b.audit, e);
    assert Observe(r).leases.at == Absorb(Observe(b), e).leases.at;
  }

  lemma {:induction false} IssueLeaseInv(b: Broker, lease: RolloutLease, job: RolloutJob, now: real)
    requires Inv(b) && lease.leaseId !in b.leases.at
    requires lease.jobId in b.jobs.at && lease.jobId !in b.leasedJobIds
    requires lease.workerId in b.workers.at && lease.workerId !in b.deadWorkers
    ensures Inv(IssueLease(b, lease, job, now))
  {
    hide WellFormed, Stamped, DeadHoldNothing, LeaseDiscipline, Accounts, AuditFaithful, IssueLease;
    NotYetListed(b, lease.leaseId);
    IssueShape(b, lease, job, now);
    IssueStamps(b, lease, job, now);
    IssueDiscipline(b, lease, job, now);
    IssueAccounts(b, lease, job, now);
    IssueAudit(b, lease, job, now);
  }

  lemma NotYetListed(b: Broker, leaseId: string)
    requires WellFormed(b) && leaseId !in b.leases.at
    ensures leaseId !in b.leases.keys
  {
  }

  lemma {:induction false} IssueShape(b: Broker, lease: RolloutLease, job: RolloutJob, now: real)
    requires WellFormed(b) && lease.leaseId !in b.leases.at
    requires lease.jobId in b.jobs.at && lease.workerId in b.workers.at
    ensures WellFormed(IssueLease(b, lease, job, now))
  {
  }

  lemma {:induction false} IssueStamps(b: Broker, lease: RolloutLease, job: RolloutJob, now: real)
    requires Stamped(b) && DeadHoldNothing(b) && lease.workerId !in b.deadWorkers
    ensures Stamped(IssueLease(b, lease, job, now)) && DeadHoldNothing(IssueLease(b, lease, job, now))
  {
  }

  // ----- closing

  lemma {:induction false} CloseDiscipline(b: Broker, leaseId: string, state: LeaseState, reason: Option<string>,
                                           group: Option<string>, detail: Detail, now: real)
    requires LeaseDiscipline(b) && leaseId in b.leases.at && b.leases.at[leaseId].state.Issued? && !state.Issued?
    ensures LeaseDiscipline(Close(b, leaseId, state, reason, group, detail, now))
    ensures b.leases.at[leaseId].lease.jobId in b.leasedJobIds
  {
    var r := Close(b, leaseId, state, reason, group, detail, now);
    var job := b.leases.at[leaseId].lease.jobId;
    assert Claims(b, leaseId, job);
    forall j, id
      ensures Claims(r, id, j) <==> Claims(b, id, j) && (id != leaseId || state.Submitted?)
    {
    }
    forall j | j in r.leasedJobIds ensures exists id :: Claims(r, id, j) {
      var id :| Claims(b, id, j);
      assert Claims(r, id, j);
    }
  }

  lemma {:induction false} ChangedRowCounts(rows: map<string, LeaseRow>, id: string, row: LeaseRow, st: LeaseState)
    requires id in rows && rows[id].state.Issued? && !row.state.Issued?
    ensures |RowsIn(rows[id := row], st)| == |RowsIn(rows, st)| +
      (if st == row.state then 1 else if st.Issued? then -1 else 0)
  {
    var before := RowsIn(rows, st);
    if st == row.state {
      assert RowsIn(rows[id := row], st) == before + {id};
    } else if st.Issued? {
      assert id in before;
      assert RowsIn(rows[id := row], st) == before - {id};
    } else {
      assert RowsIn(rows[id := row], st) == before;
    }
  }

  lemma {:induction false} CloseAccounts(b: Broker, leaseId: string, state: LeaseState, reason: Option<string>,
                                         group: Option<string>, detail: Detail, now: real)
    requires Accounts(b) && leaseId in b.leases.at && b.leases.at[leaseId].state.Issued? && !state.Issued?
    requires b.leases.at[leaseId].lease.jobId in b.leasedJobIds && leaseId in b.leases.keys
    ensures Accounts(Close(b, leaseId, state, reason, group, detail, now))
  {
    hide RowsIn, CountEvents;
    var r := Close(b, leaseId, state, reason, group, detail, now);
    var e := LeaseEntry(ClosingEvent(state), b.leases.at[leaseId].lease, detail, now);
    var row := r.leases.at[leaseId];
    assert r.leases.at == b.leases.at[leaseId := row];
    LogCounts(b.audit, e, LeaseIssued);
    ChangedRowCounts(b.leases.at, leaseId, row, Issued);
    ChangedRowCounts(b.leases.at, leaseId, row, Submitted);
    forall st: LeaseState | !st.Issued?
      ensures CountEvents(r.audit, ClosingEvent(st)) == |InState(r, st)|
    {
      LogCounts(b.audit, e, ClosingEvent(st));
      ChangedRowCounts(b.leases.at, leaseId, row, st);
    }
  }

  lemma AbsorbCloses(l: Ledger, e: AuditEntry, state: LeaseState)
    requires !state.Issued? && e.event == ClosingEvent(state)
    ensures Absorb(l, e) == CloseInLedger(l, e, state)
  {
  }

  lemma {:induction false} CloseAudit(b: Broker, leaseId: string, state: LeaseState, reason: Option<string>,
                                      group: Option<string>, detail: Detail, now: real)
    requires AuditFaithful(b) && !state.Issued?
    requires leaseId in b.leases.at && b.leases.at[leaseId].lease.leaseId == leaseId
    requires group == if detail.GroupRef? then Some(detail.groupId) else None
    ensures var r := Close(b, leaseId, state, reason, group, detail, now);
      Rebuild(r.audit) == Observe(r) && (!state.Failed? ==> AuditFaithful(r))
  {
    hide Rebuild, FailureEvents, NotesAsEvents, Absorb;
    var r := Close(b, leaseId, state, reason, group, detail, now);
    var e := LeaseEntry(ClosingEvent(state), b.leases.at[leaseId].lease, detail, now);
    LogAppends(b.audit, e);
    AbsorbCloses(Observe(b), e, state);
    assert Observe(r).leases.at == CloseInLedger(Observe(b), e, state).leases.at;
  }

  lemma {:induction false} CloseShape(b: Broker, leaseId: string, state: LeaseState, reason: Option<string>,
                                      group: Option<string>, detail: Detail, now: real)
    requires WellFormed(b) && leaseId in b.leases.at && !state.Issued?
    ensures WellFormed(Close(b, leaseId, state, reason, group, detail, now))
  {
    var r := Close(b, leaseId, state, reason, group, detail, now);
    forall id | id in r.leases.at ensures r.leases.at[id].lease == b.leases.at[id].lease {
    }
    hide Close, ClosingEvent, LeaseEntry;
    assert r.leases.Valid();
  }

  lemma {:induction false} CloseStamps(b: Broker, leaseId: string, state: LeaseState, reason: Option<string>,
                                       group: Option<string>, detail: Detail, now: real)
    requires Stamped(b) && DeadHoldNothing(b)
    requires leaseId in b.leases.at && !state.Issued? && (group.Some? <==> state.Submitted?)
    ensures Stamped(Close(b, leaseId, state, reason, group, detail, now))
    ensures DeadHoldNothing(Close(b, leaseId, state, reason, group, detail, now))
  {
  }

  lemma {:induction false} IssuedRow(b: Broker, leaseId: string)
    requires Inv(b) && leaseId in b.leases.at && b.leases.at[leaseId].state.Issued?
    ensures b.leases.at[leaseId].submittedGroupId.None? && b.leases.at[leaseId].closedAt.None?
    ensures b.leases.at[leaseId].lease.leaseId == leaseId && leaseId in b.leases.keys
    ensures FailureEvents(b.audit) == NotesAsEvents(b.failures)
  {
  }

  /** Closing an issued lease keeps everything; a failure also needs its note, which `ReportFailureInv` adds. */
  lemma {:induction false} CloseInv(b: Broker, leaseId: string, state: LeaseState, reason: Option<string>,
                                    group: Option<string>, detail: Detail, now: real)
    requires Inv(b) && leaseId in b.leases.at && b.leases.at[leaseId].state.Issued?
    requires !state.Issued? && (group.Some? <==> state.Submitted?)
    requires group == if detail.GroupRef? then Some(detail.groupId) else None
    ensures var r := Close(b, leaseId, state, reason, group, detail, now);
      && WellFormed(r) && LeaseDiscipline(r) && Stamped(r) && DeadHoldNothing(r) && Accounts(r)
      && Rebuild(r.audit) == Observe(r)
    ensures !state.Failed? ==> Inv(Close(b, leaseId, state, reason, group, detail, now))
  {
    hide WellFormed, Stamped, DeadHoldNothing, LeaseDiscipline, Accounts, AuditFaithful, Close;
    IssuedRow(b, leaseId);
    CloseShape(b, leaseId, state, reason, group, detail, now);
    CloseStamps(b, leaseId, state, reason, group, detail, now);
    CloseDiscipline(b, leaseId, state, reason, group, detail, now);
    CloseAccounts(b, leaseId, state, reason, group, detail, now);
    CloseAudit(b, leaseId, state, reason, group, detail, now);
  }

  lemma {:induction false} NotedFailure(b: Broker, lease: RolloutLease, reason: string, detail: Option<string>,
                                        now: real)
    requires FailureEvents(b.audit) == NotesAsEvents(b.failures)
    ensures FailureEvents(b.audit + [LeaseEntry(LeaseFailed, lease, FailureText(FailureLine(reason, detail)), now)])
      == NotesAsEvents(b.failures + [FailureNote(lease.workerId, lease.leaseId, lease.jobId, reason,
                                                 if detail.Some? then detail.value else "")])
  {
  }

  lemma {:induction false} ReportFailureInv(b: Broker, workerId: string, leaseId: string, reason: string,
                                            detail: Option<string>, now: real)
    requires Inv(b) && ReportFailure(b, workerId, leaseId, reason, detail, now).Ok?
    ensures Inv(ReportFailure(b, workerId, leaseId, reason, detail, now).value)
  {
    hide WellFormed, Stamped, DeadHoldNothing, LeaseDiscipline, Accounts, AuditFaithful, Rebuild, Observe;
    IssuedRow(b, leaseId);
    var r := ReportFailure(b, workerId, leaseId, reason, detail, now).value;
    var lease := b.leases.at[leaseId].lease;
    var text := FailureText(FailureLine(reason, detail));
    var c := Close(b, leaseId, Failed, Some(reason), None, text, now);
    CloseInv(b, leaseId, Failed, Some(reason), None, text, now);
    NotedFailure(b, lease, reason, detail, now);
    WithFailures(c, r.failures);
  }

  lemma {:induction false} WithFailures(c: Broker, failures: seq<FailureNote>)
    requires WellFormed(c) && LeaseDiscipline(c) && Stamped(c) && DeadHoldNothing(c) && Accounts(c)
    requires Rebuild(c.audit) == Observe(c) && FailureEvents(c.audit) == NotesAsEvents(failures)
    ensures Inv(c.(failures := failures))
  {
    var r := c.(failures := failures);
    UntouchedDiscipline(c, c.(failures := c.failures));
    assert forall j, id :: Claims(r, id, j) <==> Claims(c, id, j);
    assert forall st :: InState(r, st) == InState(c, st);
  }

  // ----- loops

  lemma {:induction false} ReapEachInv(b: Broker, ids: seq<string>, now: real)
    requires Inv(b) && forall id :: id in ids ==> id in b.leases.at
    ensures Inv(ReapEach(b, ids, now))
  {
    if ids == [] {
    } else {
      var n := |ids| - 1;
      ReapEachInv(b, ids[..n], now);
      var c := ReapEach(b, ids[..n], now);
      var row := c.leases.at[ids[n]];
      if Lapsed(row, now) {
        CloseInv(c, ids[n], Expired, row.failureReason, row.submittedGroupId, NoDetail, now);
      }
    }
  }

  lemma {:induction false} AbandonEachInv(b: Broker, ids: seq<string>, workerId: string, age: real, now: real)
    requires Inv(b) && forall id :: id in ids ==> id in b.leases.at
    ensures Inv(AbandonEach(b, ids, workerId, age, now))
    ensures AbandonEach(b, ids, workerId, age, now).workers == b.workers
  {
    if ids == [] {
    } else {
      var n := |ids| - 1;
      AbandonEachInv(b, ids[..n], workerId, age, now);
      var c := AbandonEach(b, ids[..n], workerId, age, now);
      var row := c.leases.at[ids[n]];
      if HeldBy(row, workerId) {
        CloseInv(c, ids[n], Abandoned, Some("worker_dead"), row.submittedGroupId, HeartbeatAge(age), now);
      }
    }
  }

  /** The inner loop visits every lease of the worker: none is left issued. */
  lemma {:induction false} AbandonEachClears(b: Broker, ids: seq<string>, workerId: string, age: real, now: real)
    requires forall id :: id in ids ==> id in b.leases.at
    ensures forall id :: id in ids ==> !HeldBy(AbandonEach(b, ids, workerId, age, now).leases.at[id], workerId)
  {
    if ids == [] {
    } else {
      var n := |ids| - 1;
      AbandonEachClears(b, ids[..n], workerId, age, now);
      assert ids == ids[..n] + [ids[n]];
    }
  }

  lemma {:induction false} NoneLeftIssued(b: Broker, workerId: string, age: real, now: real)
    requires WellFormed(b)
    ensures b.leases.Valid()
    ensures forall id :: id in AbandonEach(b, b.leases.keys, workerId, age, now).leases.at ==>
      !HeldBy(AbandonEach(b, b.leases.keys, workerId, age, now).leases.at[id], workerId)
    ensures forall id :: id in b.leases.keys ==> id in b.leases.at
  {
    AbandonEachClears(b, b.leases.keys, workerId, age, now);
  }

  lemma {:induction false} AbandonWorkerInv(b: Broker, workerId: string, now: real)
    requires Inv(b) && b.leases.Valid() && workerId in b.workers.at
    ensures Inv(AbandonWorker(b, workerId, now))
    ensures AbandonWorker(b, workerId, now).workers == b.workers
  {
    hide Stamped, LeaseDiscipline, Accounts, AuditFaithful, DeadHoldNothing, WellFormed;
    if GoneSilent(b, workerId, now) {
      var age := now - b.heartbeats[workerId].lastSeenAt;
      NoneLeftIssued(b, workerId, age, now);
      AbandonEachInv(b, b.leases.keys, workerId, age, now);
      MarkDeadInv(AbandonEach(b, b.leases.keys, workerId, age, now), workerId, age, now);
    }
  }

  lemma {:induction false} AbandonWorkersInv(b: Broker, ids: seq<string>, now: real)
    requires Inv(b) && b.leases.Valid() && forall id :: id in ids ==> id in b.workers.at
    ensures Inv(AbandonWorkers(b, ids, now))
    ensures AbandonWorkers(b, ids, now).workers == b.workers
  {
    if ids == [] {
    } else {
      var n := |ids| - 1;
      AbandonWorkersInv(b, ids[..n], now);
      AbandonWorkerInv(AbandonWorkers(b, ids[..n], now), ids[n], now);
    }
  }

  // ----- what the invariant says

  /** Every job is free, out on one issued lease, or submitted. */
  lemma {:induction false} JobsBalance(b: Broker)
    requires Inv(b)
    ensures |b.jobs.keys| == |b.jobs.at.Keys - b.leasedJobIds| + |InState(b, Issued)| + |InState(b, Submitted)|
  {
    forall j | j in b.leasedJobIds ensures j in b.jobs.at {
      var id :| Claims(b, id, j);
    }
    JobSplit(b.jobs, b.leasedJobIds);
  }

  lemma {:induction false} JobSplit(jobs: Dict<string, RolloutJob>, leased: set<string>)
    requires jobs.Valid() && leased <= jobs.at.Keys
    ensures |jobs.keys| == |jobs.at.Keys - leased| + |leased|
  {
    assert jobs.at.Keys == (jobs.at.Keys - leased) + leased;
    DistinctCardinality(jobs.keys, jobs.at.Keys);
  }

  lemma {:induction false} StatesPartition(rows: map<string, LeaseRow>)
    ensures |rows.Keys| == |RowsIn(rows, Issued)| + |RowsIn(rows, Submitted)| + |RowsIn(rows, Failed)|
      + |RowsIn(rows, Expired)| + |RowsIn(rows, Abandoned)|
  {
    if rows.Keys == {} {
      assert forall st :: RowsIn(rows, st) == {};
    } else {
      var id :| id in rows;
      var rest := rows - {id};
      assert rows == rest[id := rows[id]];
      assert rows.Keys == rest.Keys + {id};
      StatesPartition(rest);
      forall st: LeaseState
        ensures |RowsIn(rows, st)| == |RowsIn(rest, st)| + (if st == rows[id].state then 1 else 0)
      {
        NewRowCounts(rest, id, rows[id], st);
      }
    }
  }

  /** Every lease ever issued was submitted, failed, expired, abandoned or is still out. */
  lemma {:induction false} LeasesBalance(b: Broker)
    requires Inv(b)
    ensures CountEvents(b.audit, LeaseIssued) ==
      CountEvents(b.audit, LeaseSubmitted) + CountEvents(b.audit, LeaseFailed) + CountEvents(b.audit, LeaseExpired)
      + CountEvents(b.audit, LeaseAbandoned) + |InState(b, Issued)|
  {
    hide RowsIn, CountEvents, Stamped, DeadHoldNothing, LeaseDiscipline, Accounts, AuditFaithful;
    StatesPartition(b.leases.at);
    DistinctCardinality(b.leases.keys, b.leases.at.Keys);
    LeaseBooks(b);
  }

  lemma LeaseBooks(b: Broker)
    requires Accounts(b)
    ensures CountEvents(b.audit, LeaseIssued) == |b.leases.keys|
    ensures CountEvents(b.audit, LeaseSubmitted) == |InState(b, Submitted)|
    ensures CountEvents(b.audit, LeaseFailed) == |InState(b, Failed)|
    ensures CountEvents(b.audit, LeaseExpired) == |InState(b, Expired)|
    ensures CountEvents(b.audit, LeaseAbandoned) == |InState(b, Abandoned)|
  {
    hide RowsIn, CountEvents, InState;
    assert ClosingEvent(Submitted) == LeaseSubmitted && ClosingEvent(Failed) == LeaseFailed
        && ClosingEvent(Expired) == LeaseExpired && ClosingEvent(Abandoned) == LeaseAbandoned;
  }
}
