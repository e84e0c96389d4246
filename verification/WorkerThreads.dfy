/** The worker threads of the simulation as a transition system, and what every schedule of them achieves. */
module WorkerThreads {
  import opened Wrappers
  import opened Dicts
  import opened Contracts
  import opened Opbc
  import opened WorkerBroker
  import opened BrokerInvariants
  import opened Marketplace
  import opened WorkerLoop
  import opened Simulation
  import Histories
  import LiveStore

  // ----- threads

  /**
   Where a thread is: before or at the barrier, about to fetch, holding a lease, about to append its
   result, or done.
   */
  datatype Phase =
    | Arriving
    | AtBarrier
    | Ready
    | Holding(lease: RolloutLease)
    | Reporting(decision: GroupDecision)
    | Finished

  datatype World = World(market: Market, phases: seq<Phase>, out: seq<(nat, GroupDecision)>)

  /** Thread i runs worker `ids[i]` with profile `profiles[i]`. */
  datatype Crew = Crew(ids: seq<string>, profiles: seq<Profile>, setting: Setting)

  /** One turn of one thread, with the uuids, clock readings and random draws it will use. */
  datatype Turn = Turn(worker: nat, leaseId: string, assignmentId: string, noise: seq<real>, judgedAt: real, now: real)

  datatype Outcome = Running(world: World) | Crashed(error: Error) | Unplayable

  /** A thread that is not done can move, except that the barrier holds it until every thread has arrived. */
  predicate CanMove(phases: seq<Phase>, i: nat) {
    && i < |phases| && !phases[i].Finished?
    && (phases[i].AtBarrier? ==> forall k :: 0 <= k < |phases| ==> !phases[k].Arriving?)
  }

  predicate Enabled(w: World, i: nat) {
    CanMove(w.phases, i)
  }

  ghost predicate Playable(w: World, t: Turn) {
    Enabled(w, t.worker) && |t.noise| == 3 && t.leaseId !in w.market.broker.leases.at
  }

  predicate LeasesHeldValid(w: World) {
    forall i :: 0 <= i < |w.phases| && w.phases[i].Holding? ==> w.phases[i].lease.Valid()
  }

  function Move(w: World, i: nat, p: Phase): World
    requires i < |w.phases|
  {
    w.(phases := w.phases[i := p])
  }

  function Fetch(w: World, c: Crew, t: Turn): Outcome
    requires t.worker < |w.phases| == |c.ids|
  {
    match WorkerBroker.AcquireLease(w.market.broker, c.ids[t.worker], t.leaseId, t.assignmentId, t.now)
    case Raised(e) => Crashed(e)
    case Ok((b, None)) => Running(Move(w.(market := Market(b, w.market.store)), t.worker, Finished))
    case Ok((b, Some(lease))) => Running(Move(w.(market := Market(b, w.market.store)), t.worker, Holding(lease)))
  }

  /** Builds the group, judges it against the lease and submits it with the verdict. */
  function HandIn(w: World, c: Crew, t: Turn, lease: RolloutLease): Outcome
    requires t.worker < |w.phases| == |c.ids| == |c.profiles| && |t.noise| == 3
    requires lease.Valid() && Fit(c.setting)
  {
    match Simulation.Verdict(lease, c.profiles[t.worker], t.noise, t.judgedAt, c.setting)
    case Raised(e) => Crashed(e)
    case Ok(decision) => Submit(w, c, t, lease.leaseId, MakeGroup(lease, c.profiles[t.worker], t.noise), decision)
  }

  function Submit(w: World, c: Crew, t: Turn, leaseId: string, group: SampleGroup, decision: GroupDecision): Outcome
    requires t.worker < |w.phases| == |c.ids|
  {
    match WorkerBroker.SubmitGroup(w.market.broker, w.market.store, c.ids[t.worker], leaseId, group, decision, t.now)
    case Raised(e) => Crashed(e)
    case Ok((b, s)) => Running(Move(w.(market := Market(b, s)), t.worker, Reporting(decision)))
  }

  function TakeTurn(w: World, c: Crew, t: Turn): Outcome
    requires Playable(w, t) && |c.ids| == |c.profiles| == |w.phases|
    requires LeasesHeldValid(w) && Fit(c.setting)
  {
    match w.phases[t.worker]
    case Arriving => Running(Move(w, t.worker, AtBarrier))
    case AtBarrier => Running(Move(w, t.worker, Ready))
    case Ready => Fetch(w, c, t)
    case Holding(lease) => HandIn(w, c, t, lease)
    case Reporting(decision) => Running(Move(w.(out := w.out + [(t.worker, decision)]), t.worker, Ready))
    case Finished => Unplayable
  }

  // ----- counting over threads

  function Total(phases: seq<Phase>, f: Phase -> nat): nat {
    if phases == [] then 0 else f(phases[0]) + Total(phases[1..], f)
  }

  /** How many turns a thread has left if it finds no further job. */
  function Weight(p: Phase): nat {
    match p
    case Arriving => 3
    case AtBarrier => 2
    case Ready => 1
    case Holding(_) => 3
    case Reporting(_) => 2
    case Finished => 0
  }

  function Unreported(p: Phase): nat {
    if p.Reporting? then 1 else 0
  }

  lemma {:induction false} TotalMoved(phases: seq<Phase>, i: nat, p: Phase, f: Phase -> nat)
    requires i < |phases|
    ensures Total(phases[i := p], f) + f(phases[i]) == Total(phases, f) + f(p)
  {
    if i == 0 {
    } else {
      assert phases[i := p][1..] == phases[1..][i - 1 := p];
      TotalMoved(phases[1..], i - 1, p, f);
    }
  }

  lemma {:induction false} TotalZero(phases: seq<Phase>, f: Phase -> nat)
    requires forall i :: 0 <= i < |phases| ==> f(phases[i]) == 0
    ensures Total(phases, f) == 0
  {
    if phases == [] {
    } else {
      assert forall i :: 0 <= i < |phases[1..]| ==> phases[1..][i] == phases[i + 1];
      TotalZero(phases[1..], f);
    }
  }

  function FreeJobs(b: Broker): set<string> {
    b.jobs.at.Keys - b.leasedJobIds
  }

  function Measure(w: World): nat {
    3 * |FreeJobs(w.market.broker)| + Total(w.phases, Weight)
  }

  // ----- the invariant of the simulation

  ghost predicate CrewReady(b: Broker, ids: seq<string>) {
    Distinct(ids) && forall i :: 0 <= i < |ids| ==> ids[i] in b.workers.at && ids[i] !in b.deadWorkers
  }

  ghost predicate JobsReady(b: Broker, ids: seq<string>) {
    && b.leaseTtl > 0.0
    && (forall j :: j in b.jobs.at ==> b.jobs.at[j].Valid())
    && (forall j, i :: j in b.jobs.at && 0 <= i < |ids| && ids[i] in b.workers.at ==>
          CapabilitiesMatch(b.jobs.at[j], b.workers.at[ids[i]]))
    && (forall j, k :: j in b.jobs.at && k in b.jobs.at ==>
          (b.jobs.at[j].idempotencyKey == b.jobs.at[k].idempotencyKey ==> j == k))
  }

  ghost predicate RowsTidy(b: Broker) {
    forall id :: id in b.leases.at ==>
      var row := b.leases.at[id];
      && (row.state.Issued? || row.state.Submitted?)
      && row.lease.jobId in b.jobs.at && row.lease.idempotencyKey == b.jobs.at[row.lease.jobId].idempotencyKey
      && (row.state.Submitted? ==> row.submittedGroupId == Some("g-" + id))
  }

  ghost predicate HeldBack(rows: map<string, LeaseRow>, phases: seq<Phase>, ids: seq<string>)
    requires |ids| == |phases|
  {
    && (forall i :: 0 <= i < |phases| && phases[i].Holding? ==>
          var lease := phases[i].lease;
          && lease.leaseId in rows && rows[lease.leaseId].lease == lease && rows[lease.leaseId].state.Issued?
          && lease.workerId == ids[i] && lease.Valid())
    && (forall id :: id in rows && rows[id].state.Issued? ==>
          exists i :: 0 <= i < |phases| && phases[i].Holding? && phases[i].lease.leaseId == id)
  }

  /** The group a worker makes on a lease carries the lease's name, job and worker. */
  predicate MadeOn(group: SampleGroup, lease: RolloutLease) {
    group.groupId == "g-" + lease.leaseId && group.promptId == lease.jobId && group.workerId == lease.workerId
  }

  /** Every stored group was made on a submitted lease. */
  ghost predicate StoreNamed(rows: map<string, LeaseRow>, stored: map<string, LiveStore.StoredValue>) {
    forall g :: g in stored ==>
      stored[g].group.groupId == g
      && exists id ::
           id in rows && rows[id].state.Submitted? && g == "g-" + id && MadeOn(stored[g].group, rows[id].lease)
  }

  /** A thread's result is about a stored group of its own worker, with the status it was stored under. */
  predicate Fits(stored: map<string, LiveStore.StoredValue>, ids: seq<string>, i: nat, d: GroupDecision) {
    && i < |ids| && d.groupId in stored
    && stored[d.groupId].group.workerId == ids[i] && stored[d.groupId].state == d.status
  }

  /** The results in the list and those about to be appended fit the store and are about different groups. */
  ghost predicate Reported(stored: map<string, LiveStore.StoredValue>, phases: seq<Phase>,
                           out: seq<(nat, GroupDecision)>, ids: seq<string>)
  {
    && (forall k :: 0 <= k < |out| ==> Fits(stored, ids, out[k].0, out[k].1))
    && (forall k, l :: 0 <= k < l < |out| ==> out[k].1.groupId != out[l].1.groupId)
    && (forall i :: 0 <= i < |phases| && phases[i].Reporting? ==> Fits(stored, ids, i, phases[i].decision))
    && (forall i, k :: 0 <= i < |phases| && phases[i].Reporting? && 0 <= k < |out| ==>
          phases[i].decision.groupId != out[k].1.groupId)
    && (forall i, k :: 0 <= i < k < |phases| && phases[i].Reporting? && phases[k].Reporting? ==>
          phases[i].decision.groupId != phases[k].decision.groupId)
  }

  ghost predicate Tallied(w: World) {
    && |w.market.store.keys| == |InState(w.market.broker, Submitted)|
    && |w.out| + Total(w.phases, Unreported) == |w.market.store.keys|
  }

  ghost predicate DrainedOnceFinished(w: World) {
    (exists i :: 0 <= i < |w.phases| && w.phases[i].Finished?) ==> FreeJobs(w.market.broker) == {}
  }

  ghost predicate SimInv(w: World, c: Crew) {
    && Sound(w.market) && Inv(w.market.broker) && Histories.Settled(w.market)
    && |c.ids| == |c.profiles| == |w.phases| && Fit(c.setting)
    && CrewReady(w.market.broker, c.ids) && JobsReady(w.market.broker, c.ids) && RowsTidy(w.market.broker)
    && HeldBack(w.market.broker.leases.at, w.phases, c.ids)
    && StoreNamed(w.market.broker.leases.at, w.market.store.at)
    && Reported(w.market.store.at, w.phases, w.out, c.ids)
    && Tallied(w) && DrainedOnceFinished(w)
  }

  lemma {:induction false} HeldAreValid(w: World, c: Crew)
    requires SimInv(w, c)
    ensures Sound(w.market) && |c.ids| == |c.profiles| == |w.phases| && LeasesHeldValid(w) && Fit(c.setting)
  {
    hide Fit, Sound, Inv, Histories.Settled, CrewReady, JobsReady, RowsTidy, StoreNamed, Reported, Tallied,
      DrainedOnceFinished;
  }

  // ----- fetching

  lemma {:induction false} FetchCases(b: Broker, ids: seq<string>, i: nat, leaseId: string, assignmentId: string,
                                      now: real)
    requires WellFormed(b) && CrewReady(b, ids) && JobsReady(b, ids) && i < |ids|
    ensures var r := WorkerBroker.AcquireLease(b, ids[i], leaseId, assignmentId, now);
      && r.Ok?
      && (r.value.1.None? ==> r.value.0 == b && FreeJobs(b) == {})
      && (r.value.1.Some? ==>
            var lease := r.value.1.value;
            && lease.Valid() && lease.leaseId == leaseId && lease.workerId == ids[i]
            && lease.jobId in FreeJobs(b) && lease.jobId in b.jobs.at
            && lease.idempotencyKey == b.jobs.at[lease.jobId].idempotencyKey
            && r.value.0 == IssueLease(b, lease, b.jobs.at[lease.jobId], now))
  {
    hide NextJob, CapabilitiesMatch, IssueLease;
    NextJobIsFirstEligible(b, b.jobs.keys, b.workers.at[ids[i]]);
  }

  lemma {:induction false} IssueHeldBack(b: Broker, phases: seq<Phase>, ids: seq<string>, i: nat, lease: RolloutLease,
                                         job: RolloutJob, now: real)
    requires i < |phases| == |ids| && HeldBack(b.leases.at, phases, ids) && phases[i].Ready?
    requires lease.leaseId !in b.leases.at && lease.Valid() && lease.workerId == ids[i]
    ensures HeldBack(IssueLease(b, lease, job, now).leases.at, phases[i := Holding(lease)], ids)
  {
    var rows := IssueLease(b, lease, job, now).leases.at;
    var after := phases[i := Holding(lease)];
    forall id | id in rows && rows[id].state.Issued?
      ensures exists k :: 0 <= k < |after| && after[k].Holding? && after[k].lease.leaseId == id
    {
      if id == lease.leaseId {
        assert after[i].lease.leaseId == id;
      } else {
        var k :| 0 <= k < |phases| && phases[k].Holding? && phases[k].lease.leaseId == id;
        assert after[k] == phases[k];
      }
    }
  }

  lemma {:induction false} IssueStoreNamed(b: Broker, stored: map<string, LiveStore.StoredValue>, lease: RolloutLease,
                                           job: RolloutJob, now: real)
    requires StoreNamed(b.leases.at, stored) && lease.leaseId !in b.leases.at
    ensures StoreNamed(IssueLease(b, lease, job, now).leases.at, stored)
  {
  }

  lemma {:induction false} IssueCounts(b: Broker, lease: RolloutLease, job: RolloutJob, now: real)
    requires lease.leaseId !in b.leases.at && lease.jobId in FreeJobs(b)
    ensures var r := IssueLease(b, lease, job, now);
      |InState(r, Submitted)| == |InState(b, Submitted)| && |FreeJobs(r)| == |FreeJobs(b)| - 1
  {
    var r := IssueLease(b, lease, job, now);
    NewRowCounts(b.leases.at, lease.leaseId, LeaseRow(lease, job, Issued, None, None, None), Submitted);
    assert FreeJobs(r) == FreeJobs(b) - {lease.jobId};
  }

  // ----- submitting

  lemma {:induction false} KeyIsFree(m: Market, ids: seq<string>, leaseId: string)
    requires LeaseDiscipline(m.broker) && Histories.Settled(m) && JobsReady(m.broker, ids) && RowsTidy(m.broker)
    requires leaseId in m.broker.leases.at && m.broker.leases.at[leaseId].state.Issued?
    ensures m.broker.leases.at[leaseId].lease.idempotencyKey !in m.broker.idempotencyKeys
  {
    hide CapabilitiesMatch;
    var rows := m.broker.leases.at;
    var key := rows[leaseId].lease.idempotencyKey;
    assert Claims(m.broker, leaseId, rows[leaseId].lease.jobId);
    forall id | id in Histories.Handins(rows) ensures Histories.Handins(rows)[id].key != key {
      assert Claims(m.broker, id, rows[id].lease.jobId);
    }
  }

  lemma {:induction false} NameIsFree(rows: map<string, LeaseRow>, stored: map<string, LiveStore.StoredValue>,
                                      leaseId: string)
    requires StoreNamed(rows, stored) && leaseId in rows && rows[leaseId].state.Issued?
    ensures "g-" + leaseId !in stored
  {
    assert ("g-" + leaseId)[2..] == leaseId;
    forall id | id in rows && rows[id].state.Submitted? ensures "g-" + leaseId != "g-" + id {
      assert ("g-" + id)[2..] == id;
    }
  }

  /** Closing a held lease as submitted and storing its group: what a successful submission does. */
  function Handed(m: Market, leaseId: string, group: SampleGroup, decision: GroupDecision, now: real): Market
    requires leaseId in m.broker.leases.at
  {
    var row := m.broker.leases.at[leaseId];
    var bound := m.broker.(idempotencyKeys := m.broker.idempotencyKeys[row.lease.idempotencyKey := group.groupId]);
    Market(Close(bound, leaseId, Submitted, row.failureReason, Some(group.groupId), GroupRef(group.groupId), now),
           m.store.Put(group.groupId, LiveStore.StoredValue(group, decision.status, decision.rejectionReason, 0)))
  }

  lemma {:induction false} SubmitSucceeds(m: Market, ids: seq<string>, i: nat, leaseId: string, group: SampleGroup,
                                          decision: GroupDecision, now: real)
    requires Sound(m) && LeaseDiscipline(m.broker) && Histories.Settled(m)
    requires CrewReady(m.broker, ids) && JobsReady(m.broker, ids) && RowsTidy(m.broker)
    requires StoreNamed(m.broker.leases.at, m.store.at)
    requires i < |ids| && leaseId in m.broker.leases.at && m.broker.leases.at[leaseId].state.Issued?
    requires m.broker.leases.at[leaseId].lease.workerId == ids[i]
    requires group.groupId == "g-" + leaseId && decision.groupId == group.groupId
    ensures var n := Handed(m, leaseId, group, decision, now);
      WorkerBroker.SubmitGroup(m.broker, m.store, ids[i], leaseId, group, decision, now) == Ok((n.broker, n.store))
  {
    KeyIsFree(m, ids, leaseId);
    NameIsFree(m.broker.leases.at, m.store.at, leaseId);
    hide JobsReady, RowsTidy, StoreNamed, LeaseDiscipline, Close, Histories.HandinsSettled, Histories.Handins;
  }

  lemma {:induction false} HandedHeldBack(m: Market, phases: seq<Phase>, ids: seq<string>, i: nat, group: SampleGroup,
                                          decision: GroupDecision, now: real)
    requires i < |phases| == |ids| && HeldBack(m.broker.leases.at, phases, ids) && phases[i].Holding?
    requires Distinct(ids)
    ensures phases[i].lease.leaseId in m.broker.leases.at
    ensures HeldBack(Handed(m, phases[i].lease.leaseId, group, decision, now).broker.leases.at,
                     phases[i := Reporting(decision)], ids)
  {
    var leaseId := phases[i].lease.leaseId;
    var rows := Handed(m, leaseId, group, decision, now).broker.leases.at;
    var after := phases[i := Reporting(decision)];
    forall id | id in rows && rows[id].state.Issued?
      ensures exists k :: 0 <= k < |after| && after[k].Holding? && after[k].lease.leaseId == id
    {
      var k :| 0 <= k < |phases| && phases[k].Holding? && phases[k].lease.leaseId == id;
      assert after[k] == phases[k];
    }
    forall k | 0 <= k < |after| && after[k].Holding? ensures after[k].lease.leaseId != leaseId {
      assert ids[k] != ids[i];
    }
  }

  lemma {:induction false} HandedStoreNamed(m: Market, leaseId: string, group: SampleGroup, decision: GroupDecision,
                                            now: real)
    requires StoreNamed(m.broker.leases.at, m.store.at) && leaseId in m.broker.leases.at
    requires m.broker.leases.at[leaseId].state.Issued? && group.groupId == "g-" + leaseId
    requires MadeOn(group, m.broker.leases.at[leaseId].lease)
    ensures var n := Handed(m, leaseId, group, decision, now); StoreNamed(n.broker.leases.at, n.store.at)
  {
  }

  lemma HandedStore(m: Market, leaseId: string, group: SampleGroup, decision: GroupDecision, now: real)
    requires leaseId in m.broker.leases.at
    ensures var n := Handed(m, leaseId, group, decision, now);
      && group.groupId in n.store.at && n.store.at == m.store.at[group.groupId := n.store.at[group.groupId]]
      && n.store.at[group.groupId].group == group && n.store.at[group.groupId].state == decision.status
  {
  }

  lemma {:induction false} HandedCounts(m: Market, leaseId: string, group: SampleGroup, decision: GroupDecision,
                                        now: real)
    requires leaseId in m.broker.leases.at && m.broker.leases.at[leaseId].state.Issued? && group.groupId !in m.store.at
    ensures var n := Handed(m, leaseId, group, decision, now);
      && |InState(n.broker, Submitted)| == |InState(m.broker, Submitted)| + 1
      && FreeJobs(n.broker) == FreeJobs(m.broker) && |n.store.keys| == |m.store.keys| + 1
  {
    var row := m.broker.leases.at[leaseId];
    ChangedRowCounts(m.broker.leases.at, leaseId,
                     row.(state := Submitted, failureReason := row.failureReason,
                          submittedGroupId := Some(group.groupId), closedAt := Some(now)), Submitted);
  }

  // ----- one turn keeps the invariant and uses up one unit of the measure

  ghost predicate SameTables(b: Broker, r: Broker) {
    r.workers == b.workers && r.deadWorkers == b.deadWorkers && r.jobs == b.jobs && r.leaseTtl == b.leaseTtl
  }

  lemma {:induction false} TablesFrame(b: Broker, r: Broker, ids: seq<string>)
    requires SameTables(b, r) && CrewReady(b, ids) && JobsReady(b, ids)
    ensures CrewReady(r, ids) && JobsReady(r, ids)
  {
  }

  lemma {:induction false} IssueRowsTidy(b: Broker, lease: RolloutLease, job: RolloutJob, now: real)
    requires RowsTidy(b) && lease.jobId in b.jobs.at && lease.idempotencyKey == b.jobs.at[lease.jobId].idempotencyKey
    ensures RowsTidy(IssueLease(b, lease, job, now)) && SameTables(b, IssueLease(b, lease, job, now))
  {
  }

  lemma {:induction false} HandedRowsTidy(m: Market, leaseId: string, group: SampleGroup, decision: GroupDecision,
                                          now: real)
    requires RowsTidy(m.broker) && leaseId in m.broker.leases.at && group.groupId == "g-" + leaseId
    ensures var n := Handed(m, leaseId, group, decision, now); RowsTidy(n.broker) && SameTables(m.broker, n.broker)
  {
  }

  lemma {:induction false} MovedHeldBack(rows: map<string, LeaseRow>, phases: seq<Phase>, ids: seq<string>, i: nat,
                                         p: Phase)
    requires i < |phases| == |ids| && HeldBack(rows, phases, ids) && !phases[i].Holding? && !p.Holding?
    ensures HeldBack(rows, phases[i := p], ids)
  {
  }

  /** The result list after thread i has left its place. */
  function Appended(w: World, i: nat): seq<(nat, GroupDecision)>
    requires i < |w.phases|
  {
    if w.phases[i].Reporting? then w.out + [(i, w.phases[i].decision)] else w.out
  }

  lemma {:induction false} MovedReported(w: World, ids: seq<string>, i: nat, p: Phase)
    requires i < |w.phases| && Reported(w.market.store.at, w.phases, w.out, ids) && !p.Reporting?
    ensures Reported(w.market.store.at, w.phases[i := p], Appended(w, i), ids)
  {
  }

  lemma {:induction false} HandedReported(stored: map<string, LiveStore.StoredValue>, phases: seq<Phase>,
                                          out: seq<(nat, GroupDecision)>, ids: seq<string>, i: nat, d: GroupDecision,
                                          record: LiveStore.StoredValue)
    requires i < |phases| && Reported(stored, phases, out, ids) && !phases[i].Reporting? && d.groupId !in stored
    requires Fits(stored[d.groupId := record], ids, i, d)
    ensures Reported(stored[d.groupId := record], phases[i := Reporting(d)], out, ids)
  {
  }

  /** Arriving, passing the barrier and appending a result touch no shared table. */
  lemma {:induction false} LocalTurn(w: World, c: Crew, i: nat, p: Phase, out: seq<(nat, GroupDecision)>)
    requires SimInv(w, c) && i < |w.phases| && !w.phases[i].Holding? && !p.Holding?
    requires !w.phases[i].Finished? && (p.Finished? ==> FreeJobs(w.market.broker) == {})
    requires !p.Reporting? && out == Appended(w, i)
    ensures SimInv(World(w.market, w.phases[i := p], out), c)
  {
    hide Sound, Inv, Histories.Settled, CrewReady, JobsReady, RowsTidy, HeldBack, StoreNamed, Reported, Fit, InState;
    MovedHeldBack(w.market.broker.leases.at, w.phases, c.ids, i, p);
    MovedReported(w, c.ids, i, p);
    TotalMoved(w.phases, i, p, Unreported);
    var after := w.phases[i := p];
    if k :| 0 <= k < |after| && after[k].Finished? {
      if k != i { assert w.phases[k].Finished?; }
    }
  }

  lemma {:induction false} FetchTurn(w: World, c: Crew, t: Turn)
    requires SimInv(w, c) && Playable(w, t) && w.phases[t.worker].Ready?
    ensures var b := w.market.broker;
      var r := WorkerBroker.AcquireLease(b, c.ids[t.worker], t.leaseId, t.assignmentId, t.now);
      && r.Ok?
      && (r.value.1.None? ==> r.value.0 == b && SimInv(Move(w, t.worker, Finished), c))
      && (r.value.1.Some? ==>
            var v := World(Market(r.value.0, w.market.store), w.phases[t.worker := Holding(r.value.1.value)], w.out);
            SimInv(v, c) && |FreeJobs(v.market.broker)| == |FreeJobs(b)| - 1 && r.value.0.jobs == b.jobs)
  {
    hide Sound, Inv, WellFormed, Histories.Settled, CrewReady, JobsReady, RowsTidy, HeldBack, StoreNamed, Reported,
      Fit, Tallied, DrainedOnceFinished, WorkerBroker.AcquireLease, SimInv, FreeJobs;
    SimParts(w, c);
    var b, i := w.market.broker, t.worker;
    FetchCases(b, c.ids, i, t.leaseId, t.assignmentId, t.now);
    var r := WorkerBroker.AcquireLease(b, c.ids[i], t.leaseId, t.assignmentId, t.now).value;
    if r.1.None? {
      LocalTurn(w, c, i, Finished, w.out);
    } else {
      FetchedLease(w, c, t, r.1.value);
    }
  }

  lemma {:induction false} SimParts(w: World, c: Crew)
    requires SimInv(w, c)
    ensures Sound(w.market) && Inv(w.market.broker) && WellFormed(w.market.broker) && LeaseDiscipline(w.market.broker)
    ensures Histories.Settled(w.market) && |c.ids| == |c.profiles| == |w.phases| && Fit(c.setting)
    ensures CrewReady(w.market.broker, c.ids) && JobsReady(w.market.broker, c.ids) && RowsTidy(w.market.broker)
    ensures HeldBack(w.market.broker.leases.at, w.phases, c.ids)
    ensures StoreNamed(w.market.broker.leases.at, w.market.store.at)
    ensures Reported(w.market.store.at, w.phases, w.out, c.ids)
    ensures Tallied(w) && DrainedOnceFinished(w)
  {
    hide Sound, WellFormed, LeaseDiscipline, Stamped, DeadHoldNothing, Accounts, AuditFaithful, Histories.Settled,
      CrewReady, JobsReady, RowsTidy, HeldBack, StoreNamed, Reported, Fit, Tallied, DrainedOnceFinished;
  }

  lemma {:induction false} FetchedLease(w: World, c: Crew, t: Turn, lease: RolloutLease)
    requires SimInv(w, c) && Playable(w, t) && w.phases[t.worker].Ready?
    requires WorkerBroker.AcquireLease(w.market.broker, c.ids[t.worker], t.leaseId, t.assignmentId, t.now).Ok?
    requires var b := w.market.broker;
      && lease.Valid() && lease.leaseId == t.leaseId && lease.workerId == c.ids[t.worker]
      && lease.jobId in FreeJobs(b) && lease.jobId in b.jobs.at
      && lease.idempotencyKey == b.jobs.at[lease.jobId].idempotencyKey
      && WorkerBroker.AcquireLease(b, c.ids[t.worker], t.leaseId, t.assignmentId, t.now).value
         == (IssueLease(b, lease, b.jobs.at[lease.jobId], t.now), Some(lease))
    ensures var b := IssueLease(w.market.broker, lease, w.market.broker.jobs.at[lease.jobId], t.now);
      var v := World(Market(b, w.market.store), w.phases[t.worker := Holding(lease)], w.out);
      SimInv(v, c) && |FreeJobs(b)| == |FreeJobs(w.market.broker)| - 1 && b.jobs == w.market.broker.jobs
  {
    hide Inv, WellFormed, LeaseDiscipline, Histories.Settled, CrewReady, JobsReady, RowsTidy, HeldBack, StoreNamed,
      Reported, Fit, WorkerBroker.AcquireLease, IssueLease, SimInv, FreeJobs, InState, Sound;
    SimParts(w, c);
    var b, i := w.market.broker, t.worker;
    var job := b.jobs.at[lease.jobId];
    var op := AcquireLease(c.ids[i], t.leaseId, t.assignmentId, t.now);
    var n := Step(w.market, op).0;
    assert n == Market(IssueLease(b, lease, job, t.now), w.market.store);
    StepInv(w.market, op);
    Histories.StepSettled(w.market, op);
    IssueRowsTidy(b, lease, job, t.now);
    TablesFrame(b, n.broker, c.ids);
    IssueHeldBack(b, w.phases, c.ids, i, lease, job, t.now);
    IssueStoreNamed(b, w.market.store.at, lease, job, t.now);
    IssueCounts(b, lease, job, t.now);
    MovedReported(w, c.ids, i, Holding(lease));
    TotalMoved(w.phases, i, Holding(lease), Unreported);
    FetchedAssembled(w, c, i, lease, n);
  }

  lemma {:induction false} FetchedAssembled(w: World, c: Crew, i: nat, lease: RolloutLease, n: Market)
    requires i < |w.phases| && w.phases[i].Ready? && Tallied(w) && DrainedOnceFinished(w) && n.store == w.market.store
    requires Sound(n) && Inv(n.broker) && Histories.Settled(n) && |c.ids| == |c.profiles| == |w.phases|
    requires Fit(c.setting) && CrewReady(n.broker, c.ids) && JobsReady(n.broker, c.ids) && RowsTidy(n.broker)
    requires HeldBack(n.broker.leases.at, w.phases[i := Holding(lease)], c.ids)
    requires StoreNamed(n.broker.leases.at, n.store.at)
    requires Reported(n.store.at, w.phases[i := Holding(lease)], w.out, c.ids)
    requires |InState(n.broker, Submitted)| == |InState(w.market.broker, Submitted)|
    requires |FreeJobs(n.broker)| == |FreeJobs(w.market.broker)| - 1
    requires Total(w.phases[i := Holding(lease)], Unreported) == Total(w.phases, Unreported)
    ensures SimInv(World(n, w.phases[i := Holding(lease)], w.out), c)
  {
    hide Sound, Inv, Histories.Settled, CrewReady, JobsReady, RowsTidy, HeldBack, StoreNamed, Reported, Fit, InState,
      FreeJobs;
    var after := w.phases[i := Holding(lease)];
    forall k | 0 <= k < |after| ensures !after[k].Finished? {
      if k != i { assert !w.phases[k].Finished?; }
    }
  }

  lemma {:induction false} SubmitTurn(w: World, c: Crew, t: Turn, group: SampleGroup, decision: GroupDecision)
    requires SimInv(w, c) && Playable(w, t) && w.phases[t.worker].Holding?
    requires MadeOn(group, w.phases[t.worker].lease) && decision.groupId == group.groupId
    ensures var leaseId := w.phases[t.worker].lease.leaseId;
      && leaseId in w.market.broker.leases.at
      && var n := Handed(w.market, leaseId, group, decision, t.now);
      && Submit(w, c, t, leaseId, group, decision)
         == Running(World(n, w.phases[t.worker := Reporting(decision)], w.out))
      && SimInv(World(n, w.phases[t.worker := Reporting(decision)], w.out), c)
      && FreeJobs(n.broker) == FreeJobs(w.market.broker) && n.broker.jobs == w.market.broker.jobs
  {
    hide Inv, WellFormed, LeaseDiscipline, Histories.Settled, JobsReady, RowsTidy, StoreNamed, Reported, Fit,
      SimInv, FreeJobs, InState, Handed, WorkerBroker.SubmitGroup, Tallied, DrainedOnceFinished;
    SimParts(w, c);
    var i := t.worker;
    var lease := w.phases[i].lease;
    assert lease.workerId == c.ids[i] && w.market.broker.leases.at[lease.leaseId].lease == lease;
    assert w.market.broker.leases.at[lease.leaseId].state.Issued?;
    hide HeldBack;
    SubmitSucceeds(w.market, c.ids, i, lease.leaseId, group, decision, t.now);
    hide CrewReady;
    var op := SubmitGroup(c.ids[i], lease.leaseId, group, decision, t.now);
    var n := Handed(w.market, lease.leaseId, group, decision, t.now);
    assert Step(w.market, op).0 == n;
    StepInv(w.market, op);
    Histories.StepSettled(w.market, op);
    HandedRowsTidy(w.market, lease.leaseId, group, decision, t.now);
    TablesFrame(w.market.broker, n.broker, c.ids);
    HandedHeldBack(w.market, w.phases, c.ids, i, group, decision, t.now);
    HandedStoreNamed(w.market, lease.leaseId, group, decision, t.now);
    NameIsFree(w.market.broker.leases.at, w.market.store.at, lease.leaseId);
    HandedCounts(w.market, lease.leaseId, group, decision, t.now);
    HandedStore(w.market, lease.leaseId, group, decision, t.now);
    HandedReported(w.market.store.at, w.phases, w.out, c.ids, i, decision, n.store.at[group.groupId]);
    TotalMoved(w.phases, i, Reporting(decision), Unreported);
    HandedAssembled(w, c, i, decision, n);
  }

  lemma {:induction false} HandedAssembled(w: World, c: Crew, i: nat, decision: GroupDecision, n: Market)
    requires i < |w.phases| && w.phases[i].Holding? && Tallied(w) && DrainedOnceFinished(w)
    requires Sound(n) && Inv(n.broker) && Histories.Settled(n) && |c.ids| == |c.profiles| == |w.phases|
    requires Fit(c.setting) && CrewReady(n.broker, c.ids) && JobsReady(n.broker, c.ids) && RowsTidy(n.broker)
    requires HeldBack(n.broker.leases.at, w.phases[i := Reporting(decision)], c.ids)
    requires StoreNamed(n.broker.leases.at, n.store.at)
    requires Reported(n.store.at, w.phases[i := Reporting(decision)], w.out, c.ids)
    requires |InState(n.broker, Submitted)| == |InState(w.market.broker, Submitted)| + 1
    requires |n.store.keys| == |w.market.store.keys| + 1
    requires FreeJobs(n.broker) == FreeJobs(w.market.broker)
    requires Total(w.phases[i := Reporting(decision)], Unreported) == Total(w.phases, Unreported) + 1
    ensures SimInv(World(n, w.phases[i := Reporting(decision)], w.out), c)
  {
    hide Sound, Inv, Histories.Settled, CrewReady, JobsReady, RowsTidy, HeldBack, StoreNamed, Reported, Fit, InState,
      FreeJobs;
    var after := w.phases[i := Reporting(decision)];
    if k :| 0 <= k < |after| && after[k].Finished? {
      assert w.phases[k].Finished?;
    }
  }

  /** Every playable turn succeeds, keeps the invariant and brings the end nearer by exactly one. */
  ghost predicate GoodTurn(w: World, c: Crew, r: Outcome) {
    && r.Running? && SimInv(r.world, c) && Measure(r.world) + 1 == Measure(w)
    && r.world.market.broker.jobs == w.market.broker.jobs
  }

  lemma {:induction false} LocalKeeps(w: World, c: Crew, i: nat, p: Phase, out: seq<(nat, GroupDecision)>)
    requires SimInv(w, c) && i < |w.phases| && !w.phases[i].Holding? && !p.Holding?
    requires !w.phases[i].Finished? && !p.Finished? && Weight(p) + 1 == Weight(w.phases[i])
    requires !p.Reporting? && out == Appended(w, i)
    ensures GoodTurn(w, c, Running(World(w.market, w.phases[i := p], out)))
  {
    hide SimInv, FreeJobs;
    LocalTurn(w, c, i, p, out);
    TotalMoved(w.phases, i, p, Weight);
  }

  lemma {:induction false} FetchKeeps(w: World, c: Crew, t: Turn)
    requires SimInv(w, c) && |w.phases| == |c.ids| && Playable(w, t) && w.phases[t.worker].Ready?
    ensures GoodTurn(w, c, Fetch(w, c, t))
  {
    hide SimInv, FreeJobs, WorkerBroker.AcquireLease;
    FetchTurn(w, c, t);
    var r := WorkerBroker.AcquireLease(w.market.broker, c.ids[t.worker], t.leaseId, t.assignmentId, t.now).value;
    TotalMoved(w.phases, t.worker, if r.1.Some? then Holding(r.1.value) else Finished, Weight);
    assert w.(market := Market(w.market.broker, w.market.store)) == w;
  }

  lemma {:induction false} HandInKeeps(w: World, c: Crew, t: Turn)
    requires SimInv(w, c) && Playable(w, t) && w.phases[t.worker].Holding? && w.phases[t.worker].lease.Valid()
    requires |c.ids| == |c.profiles| == |w.phases| && Fit(c.setting)
    ensures GoodTurn(w, c, HandIn(w, c, t, w.phases[t.worker].lease))
  {
    hide SimInv, Fit, MakeGroup, Simulation.Verdict, Submit, GoodTurn;
    var lease := w.phases[t.worker].lease;
    VerdictSucceeds(lease, c.profiles[t.worker], t.noise, t.judgedAt, c.setting);
    var decision := Simulation.Verdict(lease, c.profiles[t.worker], t.noise, t.judgedAt, c.setting).value;
    MadeGroupName(lease, c.profiles[t.worker], t.noise);
    SubmitKeeps(w, c, t, MakeGroup(lease, c.profiles[t.worker], t.noise), decision);
  }

  lemma MadeGroupName(lease: RolloutLease, profile: Profile, noise: seq<real>)
    requires lease.Valid() && |noise| == 3
    ensures MadeOn(MakeGroup(lease, profile, noise), lease)
  {
  }

  lemma {:induction false} SubmitKeeps(w: World, c: Crew, t: Turn, group: SampleGroup, decision: GroupDecision)
    requires SimInv(w, c) && Playable(w, t) && w.phases[t.worker].Holding? && |c.ids| == |w.phases|
    requires MadeOn(group, w.phases[t.worker].lease) && decision.groupId == group.groupId
    ensures GoodTurn(w, c, Submit(w, c, t, w.phases[t.worker].lease.leaseId, group, decision))
  {
    hide SimInv, FreeJobs, Handed, Submit;
    SubmitTurn(w, c, t, group, decision);
    TotalMoved(w.phases, t.worker, Reporting(decision), Weight);
  }

  lemma {:induction false} TurnKeeps(w: World, c: Crew, t: Turn)
    requires SimInv(w, c) && Playable(w, t)
    ensures |c.ids| == |c.profiles| == |w.phases| && LeasesHeldValid(w) && Fit(c.setting)
    ensures GoodTurn(w, c, TakeTurn(w, c, t))
  {
    hide SimInv, Fit, Fetch, HandIn, GoodTurn;
    HeldAreValid(w, c);
    var i := t.worker;
    match w.phases[i]
    case Arriving => LocalKeeps(w, c, i, AtBarrier, w.out);
    case AtBarrier => LocalKeeps(w, c, i, Ready, w.out);
    case Ready => FetchKeeps(w, c, t);
    case Holding(lease) => HandInKeeps(w, c, t);
    case Reporting(decision) => LocalKeeps(w, c, i, Ready, w.out + [(i, decision)]);
  }

  // ----- schedules

  /** Plays a schedule from the left; a turn that is not playable makes it no schedule. */
  ghost function Play(w: World, c: Crew, turns: seq<Turn>): (r: Outcome)
    requires |c.ids| == |c.profiles| == |w.phases| && Fit(c.setting)
    ensures r.Running? ==> |r.world.phases| == |w.phases|
    decreases turns
  {
    if turns == [] then Running(w)
    else if !Playable(w, turns[0]) || !LeasesHeldValid(w) then Unplayable
    else
      TurnKeepsThreads(w, c, turns[0]);
      match TakeTurn(w, c, turns[0])
      case Running(v) => Play(v, c, turns[1..])
      case Crashed(e) => Crashed(e)
      case Unplayable => Unplayable
  }

  lemma {:induction false} TurnKeepsThreads(w: World, c: Crew, t: Turn)
    requires Playable(w, t) && |c.ids| == |c.profiles| == |w.phases| && LeasesHeldValid(w) && Fit(c.setting)
    ensures TakeTurn(w, c, t).Running? ==> |TakeTurn(w, c, t).world.phases| == |w.phases|
  {
  }

  /** A schedule goes on with a turn that is playable where it has led. */
  lemma {:induction false} PlayOneMore(w: World, c: Crew, turns: seq<Turn>, t: Turn)
    requires |c.ids| == |c.profiles| == |w.phases| && Fit(c.setting) && Play(w, c, turns).Running?
    requires Playable(Play(w, c, turns).world, t) && LeasesHeldValid(Play(w, c, turns).world)
    requires TakeTurn(Play(w, c, turns).world, c, t).Running?
    ensures Play(w, c, turns + [t]) == TakeTurn(Play(w, c, turns).world, c, t)
    decreases turns
  {
    hide TakeTurn, Playable, LeasesHeldValid, Fit;
    if turns == [] {
      assert ([] + [t])[1..] == [];
    } else {
      assert (turns + [t])[1..] == turns[1..] + [t];
      TurnKeepsThreads(w, c, turns[0]);
      PlayOneMore(TakeTurn(w, c, turns[0]).world, c, turns[1..], t);
    }
  }

  ghost predicate AllFinished(w: World) {
    forall i :: 0 <= i < |w.phases| ==> w.phases[i].Finished?
  }

  /**
   No schedule makes a thread raise, every playable turn extends it, and a schedule of k turns
   uses up exactly k units of the measure.
   */
  lemma {:induction false} SchedulesNeverCrash(w: World, c: Crew, turns: seq<Turn>)
    requires SimInv(w, c)
    ensures |c.ids| == |c.profiles| == |w.phases| && Fit(c.setting)
    ensures var r := Play(w, c, turns);
      && !r.Crashed?
      && (r.Running? ==>
            && SimInv(r.world, c) && LeasesHeldValid(r.world) && Measure(r.world) + |turns| == Measure(w)
            && r.world.market.broker.jobs == w.market.broker.jobs)
      && (|turns| > Measure(w) ==> r.Unplayable?)
    decreases turns
  {
    hide SimInv, TakeTurn, Playable, Measure, LeasesHeldValid, Fit;
    HeldAreValid(w, c);
    if turns != [] && Playable(w, turns[0]) {
      TurnKeeps(w, c, turns[0]);
      SchedulesNeverCrash(TakeTurn(w, c, turns[0]).world, c, turns[1..]);
    }
  }

  /** No deadlock: while some thread is not done, some thread can take its next turn. */
  lemma {:induction false} SomeThreadCanMove(w: World) returns (i: nat)
    requires !AllFinished(w)
    ensures Enabled(w, i)
    ensures forall t: Turn :: t.worker == i && |t.noise| == 3 && t.leaseId !in w.market.broker.leases.at ==>
      Playable(w, t)
  {
    if k :| 0 <= k < |w.phases| && w.phases[k].Arriving? {
      i := k;
    } else {
      i :| 0 <= i < |w.phases| && !w.phases[i].Finished?;
    }
  }

  /** The lease is submitted, it is on the job, and the group it brought in is stored under its name. */
  ghost predicate Serves(m: Market, id: string, jobId: string) {
    && id in m.broker.leases.at
    && var row := m.broker.leases.at[id];
    && row.state.Submitted? && row.lease.jobId == jobId && row.submittedGroupId.Some?
    && row.submittedGroupId.value in m.store.at
    && var group := m.store.at[row.submittedGroupId.value].group;
    && group.groupId == row.submittedGroupId.value && group.promptId == jobId && group.workerId == row.lease.workerId
  }

  /** Jobs, leases and stored groups correspond one to one: each job has one lease, each lease one group. */
  ghost predicate OneGroupPerJob(m: Market) {
    && (forall j :: j in m.broker.jobs.at ==> exists id :: Serves(m, id, j))
    && (forall id :: id in m.broker.leases.at ==>
          var row := m.broker.leases.at[id]; row.lease.jobId in m.broker.jobs.at && Serves(m, id, row.lease.jobId))
    && (forall x, y | x in m.broker.leases.at && y in m.broker.leases.at ::
          && (m.broker.leases.at[x].lease.jobId == m.broker.leases.at[y].lease.jobId ==> x == y)
          && (m.broker.leases.at[x].submittedGroupId == m.broker.leases.at[y].submittedGroupId ==> x == y))
    && (forall g :: g in m.store.at ==>
          exists id :: id in m.broker.leases.at && m.broker.leases.at[id].submittedGroupId == Some(g))
  }

  /** Each result is about a stored group of the thread's own worker, and each stored group has exactly one result. */
  ghost predicate OneResultPerGroup(w: World, ids: seq<string>) {
    && (forall k :: 0 <= k < |w.out| ==> Fits(w.market.store.at, ids, w.out[k].0, w.out[k].1))
    && (forall k, l :: 0 <= k < l < |w.out| ==> w.out[k].1.groupId != w.out[l].1.groupId)
    && (forall g :: g in w.market.store.at ==> exists k :: 0 <= k < |w.out| && w.out[k].1.groupId == g)
  }

  /** What a completed simulation has achieved. */
  ghost predicate AllServed(w: World, ids: seq<string>) {
    && OneGroupPerJob(w.market) && OneResultPerGroup(w, ids)
    && |w.market.broker.leases.keys| == |w.market.store.keys| == |w.market.broker.jobs.keys| == |w.out|
  }

  lemma {:induction false} NothingLeftOut(w: World, c: Crew)
    requires SimInv(w, c) && AllFinished(w) && w.phases != []
    ensures FreeJobs(w.market.broker) == {} && InState(w.market.broker, Issued) == {}
    ensures Total(w.phases, Weight) == 0 && |w.out| == |InState(w.market.broker, Submitted)| == |w.market.store.keys|
  {
    hide Sound, Inv, Histories.Settled, CrewReady, JobsReady, RowsTidy, StoreNamed, Reported, Fit, FreeJobs;
    TotalZero(w.phases, Weight);
    TotalZero(w.phases, Unreported);
    assert w.phases[0].Finished?;
  }

  /**
   When all threads are done, jobs, leases, stored groups and results correspond one to one: each
   job has one lease, that lease was submitted, its group is stored, and one thread reported it.
   The audit log tells of as many leases issued and submitted, and of none lost.
   */
  lemma {:induction false} CompletionServesAll(w: World, c: Crew)
    requires SimInv(w, c) && AllFinished(w) && w.phases != []
    ensures AllServed(w, c.ids) && Measure(w) == 0
    ensures var b := w.market.broker;
      && CountEvents(b.audit, LeaseIssued) == CountEvents(b.audit, LeaseSubmitted) == |b.jobs.keys|
      && CountEvents(b.audit, LeaseFailed) == 0 && CountEvents(b.audit, LeaseExpired) == 0
      && CountEvents(b.audit, LeaseAbandoned) == 0
  {
    hide SimInv, Inv, LeaseDiscipline, RowsTidy, Total, StoreNamed, HeldBack, Reported, Histories.Settled, Stamped,
      Accounts, OneGroupPerJob, OneResultPerGroup, CountEvents, RowsIn, InState, Tallied, DrainedOnceFinished,
      JobsReady, CrewReady, WellFormed, Fit;
    NothingLeftOut(w, c);
    SimParts(w, c);
    var b := w.market.broker;
    JobsBalance(b);
    EveryLeaseSubmitted(b);
    EveryJobServed(w.market);
    SubmittedCount(b);
    EveryGroupReported(w, c.ids);
    assert |FreeJobs(b)| == 0 && |InState(b, Issued)| == 0;
  }

  lemma {:induction false} EveryLeaseSubmitted(b: Broker)
    requires RowsTidy(b) && InState(b, Issued) == {}
    ensures forall id :: id in b.leases.at ==> b.leases.at[id].state.Submitted?
  {
    forall id | id in b.leases.at ensures b.leases.at[id].state.Submitted? {
      assert id !in InState(b, Issued);
    }
  }

  lemma {:induction false} LeaseServes(m: Market, id: string)
    requires RowsTidy(m.broker) && Histories.Settled(m) && StoreNamed(m.broker.leases.at, m.store.at)
    requires id in m.broker.leases.at && m.broker.leases.at[id].state.Submitted?
    ensures Serves(m, id, m.broker.leases.at[id].lease.jobId) && m.broker.leases.at[id].lease.jobId in m.broker.jobs.at
    ensures m.broker.leases.at[id].submittedGroupId == Some("g-" + id)
  {
    hide StoreNamed;
    assert id in Histories.Handins(m.broker.leases.at);
    NamesAreDistinct(m.broker.leases.at, m.store.at, id);
  }

  lemma {:induction false} EveryJobServed(m: Market)
    requires LeaseDiscipline(m.broker) && RowsTidy(m.broker) && FreeJobs(m.broker) == {} && Histories.Settled(m)
    requires StoreNamed(m.broker.leases.at, m.store.at) && WellFormed(m.broker)
    requires forall id :: id in m.broker.leases.at ==> m.broker.leases.at[id].state.Submitted?
    ensures OneGroupPerJob(m)
  {
    hide RowsTidy, Histories.Settled, WellFormed, StoreNamed, Serves;
    var rows := m.broker.leases.at;
    forall id | id in rows
      ensures Serves(m, id, rows[id].lease.jobId) && rows[id].lease.jobId in m.broker.jobs.at
      ensures rows[id].submittedGroupId == Some("g-" + id)
    {
      LeaseServes(m, id);
    }
    forall j | j in m.broker.jobs.at ensures exists id :: Serves(m, id, j) {
      assert j !in FreeJobs(m.broker);
      var id :| Claims(m.broker, id, j);
      assert Serves(m, id, j);
    }
    forall x, y | x in rows && y in rows
      ensures rows[x].lease.jobId == rows[y].lease.jobId ==> x == y
      ensures rows[x].submittedGroupId == rows[y].submittedGroupId ==> x == y
    {
      assert Claims(m.broker, x, rows[x].lease.jobId) && Claims(m.broker, y, rows[y].lease.jobId);
      assert ("g-" + x)[2..] == x && ("g-" + y)[2..] == y;
    }
    EveryGroupHandedIn(m);
  }

  lemma {:induction false} EveryGroupHandedIn(m: Market)
    requires StoreNamed(m.broker.leases.at, m.store.at)
    requires forall id :: id in m.broker.leases.at ==> m.broker.leases.at[id].submittedGroupId == Some("g-" + id)
    ensures forall g :: g in m.store.at ==>
      exists id :: id in m.broker.leases.at && m.broker.leases.at[id].submittedGroupId == Some(g)
  {
  }

  /** A stored group named after a lease was made on that lease. */
  lemma {:induction false} NamesAreDistinct(rows: map<string, LeaseRow>, stored: map<string, LiveStore.StoredValue>,
                                            id: string)
    requires StoreNamed(rows, stored) && id in rows && "g-" + id in stored
    ensures stored["g-" + id].group.groupId == "g-" + id && MadeOn(stored["g-" + id].group, rows[id].lease)
  {
    var x :| x in rows && "g-" + id == "g-" + x && MadeOn(stored["g-" + id].group, rows[x].lease);
    assert ("g-" + id)[2..] == id && ("g-" + x)[2..] == x;
  }

  lemma {:induction false} SubmittedCount(b: Broker)
    requires Inv(b) && forall id :: id in b.leases.at ==> b.leases.at[id].state.Submitted?
    ensures |InState(b, Submitted)| == |b.leases.keys|
    ensures CountEvents(b.audit, LeaseIssued) == |b.leases.keys| == CountEvents(b.audit, LeaseSubmitted)
    ensures CountEvents(b.audit, LeaseFailed) == 0 && CountEvents(b.audit, LeaseExpired) == 0
    ensures CountEvents(b.audit, LeaseAbandoned) == 0
  {
    hide Stamped, DeadHoldNothing, LeaseDiscipline, AuditFaithful, CountEvents;
    assert InState(b, Submitted) == b.leases.at.Keys;
    DistinctCardinality(b.leases.keys, b.leases.at.Keys);
    assert InState(b, Failed) == {} && InState(b, Expired) == {} && InState(b, Abandoned) == {};
    assert ClosingEvent(Submitted).LeaseSubmitted? && ClosingEvent(Failed).LeaseFailed?;
    assert ClosingEvent(Expired).LeaseExpired? && ClosingEvent(Abandoned).LeaseAbandoned?;
  }

  /** As many different results as groups: none is left unreported. */
  lemma {:induction false} EveryGroupReported(w: World, ids: seq<string>)
    requires w.market.store.Valid() && Reported(w.market.store.at, w.phases, w.out, ids)
    requires |w.out| == |w.market.store.keys|
    ensures OneResultPerGroup(w, ids)
  {
    var named := seq(|w.out|, k requires 0 <= k < |w.out| => w.out[k].1.groupId);
    var all := w.market.store.at.Keys;
    DistinctCardinality(w.market.store.keys, all);
    var part := set g | g in named;
    DistinctCardinality(named, part);
    NoneLeft(part, all);
    forall g | g in w.market.store.at ensures exists k :: 0 <= k < |w.out| && w.out[k].1.groupId == g {
      assert g in named;
      var k :| 0 <= k < |named| && named[k] == g;
      assert w.out[k].1.groupId == g;
    }
  }

  lemma NoneLeft<T>(part: set<T>, all: set<T>)
    requires part <= all && |part| == |all|
    ensures part == all
  {
    assert all == part + (all - part);
  }

  /** A turn draws at most the one lease id it was given. */
  lemma {:induction false} TurnDrawsOneId(w: World, c: Crew, t: Turn)
    requires Playable(w, t) && |c.ids| == |c.profiles| == |w.phases| && LeasesHeldValid(w) && Fit(c.setting)
    requires TakeTurn(w, c, t).Running?
    ensures TakeTurn(w, c, t).world.market.broker.leases.at.Keys <= w.market.broker.leases.at.Keys + {t.leaseId}
  {
    hide Fit, NextJob, Simulation.Verdict, MakeGroup, LiveStore.Submit;
  }
}
