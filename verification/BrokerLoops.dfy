/** What the two sweeping loops of the broker achieve, stated without the loops. */
module BrokerLoops {
  import opened Wrappers
  import opened Dicts
  import opened Contracts
  import opened WorkerBroker

  function AfterReap(row: LeaseRow, now: real): LeaseRow {
    if Lapsed(row, now) then row.(state := Expired, closedAt := Some(now)) else row
  }

  lemma {:induction false} ReapEachExact(b: Broker, ids: seq<string>, now: real)
    requires Distinct(ids) && forall id :: id in ids ==> id in b.leases.at
    ensures var r := ReapEach(b, ids, now);
      && (forall id :: id in b.leases.at ==>
            r.leases.at[id] == if id in ids then AfterReap(b.leases.at[id], now) else b.leases.at[id])
      && forall j :: j in r.leasedJobIds <==>
           (j in b.leasedJobIds
            && forall id :: id in ids && Lapsed(b.leases.at[id], now) ==> b.leases.at[id].lease.jobId != j)
  {
    if ids == [] {
    } else {
      var n := |ids| - 1;
      DistinctPrefix(ids, n);
      ReapEachExact(b, ids[..n], now);
      assert ids == ids[..n] + [ids[n]];
      hide Close;
      ReapOneExact(ReapEach(b, ids[..n], now), ids[n], now);
    }
  }

  lemma {:induction false} ReapOneExact(b: Broker, leaseId: string, now: real)
    requires leaseId in b.leases.at
    ensures var r := ReapOne(b, leaseId, now);
      && r.leases.at == b.leases.at[leaseId := AfterReap(b.leases.at[leaseId], now)]
      && r.leasedJobIds ==
        if Lapsed(b.leases.at[leaseId], now)
        then b.leasedJobIds - {b.leases.at[leaseId].lease.jobId}
        else b.leasedJobIds
  {
  }

  lemma {:induction false} LapsedIdsExact(rows: map<string, LeaseRow>, ids: seq<string>, now: real)
    requires Distinct(ids) && forall id :: id in ids ==> id in rows
    ensures forall id :: id in LapsedIds(rows, ids, now) <==> id in ids && Lapsed(rows[id], now)
    ensures Distinct(LapsedIds(rows, ids, now))
  {
    if ids == [] {
    } else {
      var n := |ids| - 1;
      DistinctPrefix(ids, n);
      LapsedIdsExact(rows, ids[..n], now);
      assert ids == ids[..n] + [ids[n]];
    }
  }

  /**
   Reaping closes exactly the issued leases past their expiry, each once, frees exactly their
   jobs and returns exactly their ids.
   */
  lemma {:induction false} ReapExpiredExact(b: Broker, now: real)
    requires b.leases.Valid()
    ensures var (r, ids) := ReapExpired(b, now);
      && (forall id :: id in b.leases.at ==> id in r.leases.at && r.leases.at[id] == AfterReap(b.leases.at[id], now))
      && (forall id :: id in ids <==> id in b.leases.at && Lapsed(b.leases.at[id], now))
      && Distinct(ids)
      && forall j :: j in r.leasedJobIds <==>
           (j in b.leasedJobIds && forall id :: id in ids ==> b.leases.at[id].lease.jobId != j)
  {
    ReapEachExact(b, b.leases.keys, now);
    LapsedIdsExact(b.leases.at, b.leases.keys, now);
  }

  /** A second sweep at the same instant finds nothing. */
  lemma {:induction false} ReapTwiceIsIdle(b: Broker, now: real)
    requires b.leases.Valid()
    ensures ReapExpired(ReapExpired(b, now).0, now) == (ReapExpired(b, now).0, [])
  {
    hide ReapEach, LapsedIds;
    ReapExpiredExact(b, now);
    NothingLapsed(ReapExpired(b, now).0, b.leases.keys, now);
  }

  lemma {:induction false} NothingLapsed(b: Broker, ids: seq<string>, now: real)
    requires forall id :: id in ids ==> id in b.leases.at && !Lapsed(b.leases.at[id], now)
    ensures ReapEach(b, ids, now) == b && LapsedIds(b.leases.at, ids, now) == []
  {
    if ids == [] {
    } else {
      NothingLapsed(b, ids[..|ids| - 1], now);
    }
  }

  /**
   A lease lives for its time to live: a sweep at time t expires it exactly when t is that late, and
   then its job is free.
   */
  lemma {:induction false} LeaseLifetime(b: Broker, workerId: string, leaseId: string, assignmentId: string, now: real,
                                         t: real)
    requires b.leases.Valid() && leaseId !in b.leases.at
    requires AcquireLease(b, workerId, leaseId, assignmentId, now).Ok?
    requires AcquireLease(b, workerId, leaseId, assignmentId, now).value.1.Some?
    ensures var (c, lease) := AcquireLease(b, workerId, leaseId, assignmentId, now).value;
      && c.leases.Valid()
      && var r := ReapExpired(c, t).0;
      && leaseId in r.leases.at
      && (r.leases.at[leaseId].state.Expired? <==> t >= now + b.leaseTtl)
      && (t >= now + b.leaseTtl ==> lease.value.jobId !in r.leasedJobIds)
  {
    hide NextJob, ReapEach, LapsedIds;
    NextJobIsFirstEligible(b, b.jobs.keys, b.workers.at[workerId]);
    var (c, lease) := AcquireLease(b, workerId, leaseId, assignmentId, now).value;
    ReapExpiredExact(c, t);
    assert Lapsed(c.leases.at[leaseId], t) <==> t >= now + b.leaseTtl;
  }

  // ----- abandoning

  function AfterAbandon(row: LeaseRow, now: real): LeaseRow {
    row.(state := Abandoned, failureReason := Some("worker_dead"), closedAt := Some(now))
  }

  lemma {:induction false} AbandonEachExact(b: Broker, ids: seq<string>, workerId: string, age: real, now: real)
    requires Distinct(ids) && forall id :: id in ids ==> id in b.leases.at
    ensures var r := AbandonEach(b, ids, workerId, age, now);
      forall id :: id in b.leases.at ==>
        r.leases.at[id] ==
          if id in ids && HeldBy(b.leases.at[id], workerId) then AfterAbandon(b.leases.at[id], now) else b.leases.at[id]
  {
    hide AbandonOne, HeldBy, AfterAbandon;
    if ids == [] {
    } else {
      var n := |ids| - 1;
      DistinctPrefix(ids, n);
      AbandonEachExact(b, ids[..n], workerId, age, now);
      assert ids == ids[..n] + [ids[n]];
      AbandonOneExact(AbandonEach(b, ids[..n], workerId, age, now), ids[n], workerId, age, now);
    }
  }

  lemma {:induction false} AbandonOneExact(b: Broker, leaseId: string, workerId: string, age: real, now: real)
    requires leaseId in b.leases.at
    ensures AbandonOne(b, leaseId, workerId, age, now).leases.at ==
      if HeldBy(b.leases.at[leaseId], workerId)
      then b.leases.at[leaseId := AfterAbandon(b.leases.at[leaseId], now)] else b.leases.at
  {
  }

  /** The workers that a sweep finds silent, with the leases each holds, all read from the state before the sweep. */
  function SilentHoldings(b: Broker, ids: seq<string>, now: real): seq<(string, seq<string>)>
    requires b.leases.Valid()
  {
    if ids == [] then []
    else
      var n := |ids| - 1;
      SilentHoldings(b, ids[..n], now) +
      if GoneSilent(b, ids[n], now) then [(ids[n], HeldIds(b.leases.at, b.leases.keys, ids[n]))] else []
  }

  ghost predicate Swept(b: Broker, ids: seq<string>, now: real, r: Broker)
    requires r.leases.at.Keys == b.leases.at.Keys
  {
    && (forall id :: id in b.leases.at ==>
          r.leases.at[id] ==
            if b.leases.at[id].lease.workerId in ids && GoneSilent(b, b.leases.at[id].lease.workerId, now)
               && b.leases.at[id].state.Issued?
            then AfterAbandon(b.leases.at[id], now) else b.leases.at[id])
    && (forall w :: w in r.deadWorkers <==> w in b.deadWorkers || (w in ids && GoneSilent(b, w, now)))
  }

  lemma {:induction false} AbandonWorkerExact(b: Broker, workerId: string, now: real)
    requires b.leases.Valid()
    ensures Swept(b, [workerId], now, AbandonWorker(b, workerId, now))
  {
    hide AbandonEach;
    if GoneSilent(b, workerId, now) {
      AbandonEachExact(b, b.leases.keys, workerId, now - b.heartbeats[workerId].lastSeenAt, now);
    }
  }

  lemma {:induction false} HeldIdsSame(a: map<string, LeaseRow>, b: map<string, LeaseRow>, ids: seq<string>,
                                       workerId: string)
    requires forall id :: id in ids ==> id in a && id in b && (HeldBy(a[id], workerId) <==> HeldBy(b[id], workerId))
    ensures HeldIds(a, ids, workerId) == HeldIds(b, ids, workerId)
  {
    if ids == [] {
    } else {
      HeldIdsSame(a, b, ids[..|ids| - 1], workerId);
    }
  }

  lemma {:induction false} AbandonWorkersExact(b: Broker, ids: seq<string>, now: real)
    requires b.leases.Valid() && Distinct(ids)
    ensures Swept(b, ids, now, AbandonWorkers(b, ids, now))
    ensures AbandonedBy(b, ids, now) == SilentHoldings(b, ids, now)
  {
    hide AbandonWorker, HeldIds, Swept, GoneSilent;
    if ids == [] {
      NothingSwept(b, now);
    } else {
      var n := |ids| - 1;
      DistinctPrefix(ids, n);
      AbandonWorkersExact(b, ids[..n], now);
      var c := AbandonWorkers(b, ids[..n], now);
      AbandonWorkerExact(c, ids[n], now);
      assert ids == ids[..n] + [ids[n]];
      SweepOneMore(b, ids[..n], now, c, ids[n], AbandonWorkers(b, ids, now));
      SameHoldings(b, ids[..n], now, c, ids[n]);
    }
  }

  lemma NothingSwept(b: Broker, now: real)
    ensures Swept(b, [], now, b)
  {
  }

  lemma {:induction false} SameHoldings(b: Broker, ids: seq<string>, now: real, c: Broker, workerId: string)
    requires c.leases.at.Keys == b.leases.at.Keys && c.leases.keys == b.leases.keys && b.leases.Valid()
    requires c.leases.Valid()
    requires c.heartbeats == b.heartbeats && c.heartbeatTtl == b.heartbeatTtl
    requires workerId !in ids && Swept(b, ids, now, c)
    ensures GoneSilent(c, workerId, now) <==> GoneSilent(b, workerId, now)
    ensures HeldIds(c.leases.at, c.leases.keys, workerId) == HeldIds(b.leases.at, b.leases.keys, workerId)
  {
    hide HeldIds;
    HeldIdsSame(c.leases.at, b.leases.at, b.leases.keys, workerId);
  }

  lemma {:induction false} SweepOneMore(b: Broker, ids: seq<string>, now: real, c: Broker, workerId: string, r: Broker)
    requires c.leases.at.Keys == b.leases.at.Keys && r.leases.at.Keys == c.leases.at.Keys
    requires c.heartbeats == b.heartbeats && c.heartbeatTtl == b.heartbeatTtl
    requires workerId !in ids && Swept(b, ids, now, c) && Swept(c, [workerId], now, r)
    ensures Swept(b, ids + [workerId], now, r)
  {
    assert GoneSilent(c, workerId, now) <==> GoneSilent(b, workerId, now);
  }

  /**
   One sweep declares dead exactly the registered workers whose last heartbeat is older than the
   time to live, abandons exactly the issued leases they hold, and reports exactly those. A worker
   that never sent a heartbeat is never declared dead.
   */
  lemma {:induction false} AbandonStaleWorkersExact(b: Broker, now: real)
    requires b.leases.Valid() && b.workers.Valid()
    ensures var (r, report) := AbandonStaleWorkers(b, now);
      Swept(b, b.workers.keys, now, r) && report == SilentHoldings(b, b.workers.keys, now)
    ensures forall w :: w !in b.heartbeats && w !in b.deadWorkers ==> w !in AbandonStaleWorkers(b, now).0.deadWorkers
  {
    AbandonWorkersExact(b, b.workers.keys, now);
  }
}
