/**
 What the store's operations do, told in the fields of its records alone: which groups a batch
 holds, what a transition changes, and how long a change lasts.
 */
module StoreLaws {
  import opened Wrappers
  import opened Dicts
  import opened Contracts
  import opened Marketplace
  import WorkerBroker
  import LiveStore
  import LiveStoreObjects

  // ----- adding and changing records

  /** A group goes into the store once, at the end, under its own id, with the decision's status and reason. */
  lemma DepositLaw(m: Market, group: SampleGroup, decision: GroupDecision)
    requires Sound(m)
    ensures var (n, reply) := Step(m, Deposit(group, decision));
      if decision.groupId != group.groupId then n == m && reply == Refused(InvalidValue)
      else if group.groupId in m.store.at then n == m && reply == Refused(DuplicateGroup)
      else
        && reply.Done? && n.broker == m.broker && n.store.keys == m.store.keys + [group.groupId]
        && n.store.at == m.store.at[group.groupId :=
                           LiveStore.StoredValue(group, decision.status, decision.rejectionReason, 0)]
  {
  }

  /**
   A transition succeeds exactly when the group is stored, it is not to leave the rejected state, and
   a reason is given for a rejection and for nothing else. Then the group has the requested state and
   reason; its contents, its count, all other records and the order are as before.
   */
  lemma TransitionLaw(m: Market, id: string, newState: GroupStatus, reason: Option<RejectionReason>)
    requires Sound(m)
    ensures var (n, reply) := Step(m, Transition(id, newState, reason)); var s, t := m.store, n.store;
      && (reply.Done? <==>
            && id in s.at && (s.at[id].state == Rejected ==> newState == Rejected)
            && (reason != None <==> newState == Rejected))
      && (reply.Done? ==>
            && n.broker == m.broker && t.keys == s.keys && t.at.Keys == s.at.Keys
            && t.at[id] == LiveStore.StoredValue(s.at[id].group, newState, reason, s.at[id].servedCount)
            && forall g :: g in s.at && g != id ==> t.at[g] == s.at[g])
      && (!reply.Done? ==>
            n == m && reply == Refused(if id in s.at then InvalidValue else UnknownGroup))
  {
  }

  // ----- batches

  /** What a consumer asks for, in the terms of the record. */
  ghost predicate Wanted(v: LiveStore.StoredValue, quarantined: bool, version: Option<string>, lag: Option<int>,
                         precision: Option<string>)
  {
    && (v.state == Accepted || v.state == Correctable || (quarantined && v.state == Quarantined))
    && (version == None || version == Some(v.group.policyVersion))
    && (lag == None || lag.value >= v.group.policyLagSteps)
    && (precision == None || precision == Some(v.group.precisionClass))
  }

  lemma WantedIsAdmitted(v: LiveStore.StoredValue, q: LiveStore.Query)
    ensures LiveStore.Admits(q, v) <==> Wanted(v, q.admitQuarantined, q.policyVersion, q.maxStaleness, q.precisionClass)
  {
  }

  /** The ids are those of wanted records, in store order, and as many of the first ones as asked for. */
  ghost predicate FirstWanted(s: LiveStore.Store, batch: seq<string>, maxGroups: int, quarantined: bool,
                              version: Option<string>, lag: Option<int>, precision: Option<string>)
    requires s.Valid()
  {
    && (forall g :: g in batch ==> g in s.at && Wanted(s.at[g], quarantined, version, lag, precision))
    && (forall i, k :: 0 <= i < k < |batch| ==>
          LiveStore.Position(s.keys, batch[i]) < LiveStore.Position(s.keys, batch[k]))
    && |batch| <= (if maxGroups > 0 then maxGroups else 0)
    && (forall g :: g in s.at && Wanted(s.at[g], quarantined, version, lag, precision) && g !in batch ==>
          && |batch| == (if maxGroups > 0 then maxGroups else 0)
          && forall taken :: taken in batch ==>
               LiveStore.Position(s.keys, taken) < LiveStore.Position(s.keys, g))
  }

  /** Each record of the batch is counted once more; nothing else in the store changes. */
  ghost predicate CountedOnce(s: LiveStore.Store, t: LiveStore.Store, batch: seq<string>) {
    && t.keys == s.keys && t.at.Keys == s.at.Keys
    && forall g :: g in s.at ==>
         t.at[g] == LiveStore.StoredValue(s.at[g].group, s.at[g].state, s.at[g].rejectionReason,
                                          s.at[g].servedCount + if g in batch then 1 else 0)
  }

  /** A batch holds the first wanted groups and each of them is counted. */
  lemma {:induction false} ConsumeLaw(m: Market, q: LiveStore.Query, maxGroups: int)
    requires Sound(m)
    ensures var (n, reply) := Step(m, Consume(q, maxGroups));
      && reply.Served? && n.broker == m.broker && CountedOnce(m.store, n.store, reply.groupIds)
      && FirstWanted(m.store, reply.groupIds, maxGroups, q.admitQuarantined, q.policyVersion, q.maxStaleness,
                     q.precisionClass)
  {
    hide LiveStore.Batch, LiveStore.Admits, Wanted;
    LiveStore.BatchIsFirstAdmitted(m.store, q, maxGroups);
    forall g | g in m.store.at
      ensures LiveStore.Admits(q, m.store.at[g]) <==>
        Wanted(m.store.at[g], q.admitQuarantined, q.policyVersion, q.maxStaleness, q.precisionClass)
    {
      WantedIsAdmitted(m.store.at[g], q);
    }
  }

  /** `get_batch`: the first accepted or correctable groups, quarantined ones on request, whatever else they are. */
  lemma {:induction false} GetBatchLaw(s: LiveStore.Store, maxGroups: int, includeQuarantined: bool)
    requires s.Valid()
    ensures var q := LiveStore.Query(includeQuarantined, None, None, None);
      && FirstWanted(s, LiveStore.Batch(s, q, maxGroups), maxGroups, includeQuarantined, None, None, None)
      && CountedOnce(s, LiveStore.Serve(s, q, maxGroups), LiveStore.Batch(s, q, maxGroups))
  {
    hide LiveStore.Batch, LiveStore.Serve, Wanted;
    ConsumeLaw(Market(WorkerBroker.EmptyBroker(1.0, 1.0), s), LiveStore.Query(includeQuarantined, None, None, None),
               maxGroups);
  }

  /** `fetch`: the first such groups of the version that pass the given filters; quarantined ones in the replay tier. */
  lemma {:induction false} FetchLaw(s: LiveStore.Store, version: string, maxGroups: int, maxStaleness: Option<int>,
                                    precision: Option<string>, tier: LiveStoreObjects.ReplayTier)
    requires s.Valid()
    ensures var q := LiveStoreObjects.TrainerClient.FetchQuery(version, maxStaleness, precision, tier);
      && FirstWanted(s, LiveStore.Batch(s, q, maxGroups), maxGroups, tier == LiveStoreObjects.Replay, Some(version),
                     maxStaleness, precision)
      && CountedOnce(s, LiveStore.Serve(s, q, maxGroups), LiveStore.Batch(s, q, maxGroups))
  {
    hide LiveStore.Batch, LiveStore.Serve, Wanted;
    ConsumeLaw(Market(WorkerBroker.EmptyBroker(1.0, 1.0), s),
               LiveStoreObjects.TrainerClient.FetchQuery(version, maxStaleness, precision, tier), maxGroups);
  }

  ghost function InState(s: LiveStore.Store, ids: seq<string>, state: GroupStatus): set<string> {
    set id | id in ids && id in s.at && s.at[id].state == state
  }

  /** Counting by state counts the records in each state. */
  lemma {:induction false} CountByStateLaw(s: LiveStore.Store, ids: seq<string>, state: GroupStatus)
    requires Distinct(ids) && forall id :: id in ids ==> id in s.at
    ensures LiveStore.CountState(s, ids, state) == |InState(s, ids, state)|
  {
    if ids == [] {
      assert InState(s, ids, state) == {};
    } else {
      hide InState;
      var n := |ids| - 1;
      DistinctPrefix(ids, n);
      CountByStateLaw(s, ids[..n], state);
      assert ids == ids[..n] + [ids[n]];
      OneMoreInState(s, ids[..n], ids[n], state);
    }
  }

  lemma OneMoreInState(s: LiveStore.Store, ids: seq<string>, id: string, state: GroupStatus)
    requires id in s.at && id !in ids
    ensures |InState(s, ids + [id], state)| == |InState(s, ids, state)| + if s.at[id].state == state then 1 else 0
  {
    var before := InState(s, ids, state);
    assert InState(s, ids + [id], state) == if s.at[id].state == state then before + {id} else before;
  }

  // ----- how long a state lasts

  /** A group's state and reason are what they were unless the group itself is transitioned. */
  lemma {:induction false} StepKeepsState(m: Market, op: Op, g: string)
    requires Sound(m) && g in m.store.at && !(op.Transition? && op.groupId == g)
    ensures var t := Step(m, op).0.store;
      && g in t.at && t.at[g].group == m.store.at[g].group && t.at[g].state == m.store.at[g].state
      && t.at[g].rejectionReason == m.store.at[g].rejectionReason
  {
    hide WorkerBroker.ReapEach, WorkerBroker.AbandonWorkers, WorkerBroker.AbandonedBy, WorkerBroker.LapsedIds,
      LiveStore.Batch, WorkerBroker.NextJob;
  }

  lemma {:induction false} RunKeepsState(m: Market, ops: seq<Op>, g: string)
    requires Sound(m) && g in m.store.at
    requires forall i :: 0 <= i < |ops| ==> !(ops[i].Transition? && ops[i].groupId == g)
    ensures var t := Run(m, ops).store;
      && g in t.at && t.at[g].group == m.store.at[g].group && t.at[g].state == m.store.at[g].state
      && t.at[g].rejectionReason == m.store.at[g].rejectionReason
  {
    hide Step, Sound;
    if ops == [] {
    } else {
      RunKeepsState(m, ops[..|ops| - 1], g);
      StepKeepsState(Run(m, ops[..|ops| - 1]), ops[|ops| - 1], g);
    }
  }

  /**
   A quarantine holds: once a group has been moved to quarantine, no batch that leaves quarantined
   groups out contains it, through any operations, until the group itself is moved again.
   */
  lemma {:induction false} QuarantineHolds(m: Market, id: string, ops: seq<Op>, q: LiveStore.Query, maxGroups: int)
    requires Sound(m) && Step(m, Transition(id, Quarantined, None)).1.Done? && !q.admitQuarantined
    requires forall i :: 0 <= i < |ops| ==> !(ops[i].Transition? && ops[i].groupId == id)
    ensures var reply := Step(Run(Step(m, Transition(id, Quarantined, None)).0, ops), Consume(q, maxGroups)).1;
      reply.Served? && id !in reply.groupIds
  {
    hide Step, Run, FirstWanted, CountedOnce;
    TransitionLaw(m, id, Quarantined, None);
    var after := Step(m, Transition(id, Quarantined, None)).0;
    RunKeepsState(after, ops, id);
    var end := Run(after, ops);
    ConsumeLaw(end, q, maxGroups);
    NotWanted(end.store, id, Step(end, Consume(q, maxGroups)).1.groupIds, q, maxGroups);
  }

  lemma NotWanted(s: LiveStore.Store, id: string, batch: seq<string>, q: LiveStore.Query, maxGroups: int)
    requires s.Valid() && id in s.at && s.at[id].state == Quarantined && !q.admitQuarantined
    requires FirstWanted(s, batch, maxGroups, q.admitQuarantined, q.policyVersion, q.maxStaleness, q.precisionClass)
    ensures id !in batch
  {
  }

  /** And a release works: a group moved to accepted is in every batch that is not full before it. */
  lemma {:induction false} ReleasedIsServed(m: Market, id: string, ops: seq<Op>, maxGroups: int)
    requires Sound(m) && Step(m, Transition(id, Accepted, None)).1.Done?
    requires forall i :: 0 <= i < |ops| ==> !(ops[i].Transition? && ops[i].groupId == id)
    ensures var reply := Step(Run(Step(m, Transition(id, Accepted, None)).0, ops),
                              Consume(LiveStore.Query(false, None, None, None), maxGroups)).1;
      reply.Served? && (|reply.groupIds| < maxGroups ==> id in reply.groupIds)
  {
    hide Step, Run, CountedOnce;
    TransitionLaw(m, id, Accepted, None);
    var after := Step(m, Transition(id, Accepted, None)).0;
    RunKeepsState(after, ops, id);
    ConsumeLaw(Run(after, ops), LiveStore.Query(false, None, None, None), maxGroups);
  }
}
