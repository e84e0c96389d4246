/** The LiveStore and its consumer as objects: records are updated in place and handed out by reference. */
module LiveStoreObjects {
  import opened Wrappers
  import opened Dicts
  import opened Contracts
  import LiveStore

  /** One LiveStore record. */
  class StoredGroup {
    const group: SampleGroup
    var state: GroupStatus
    var rejectionReason: Option<RejectionReason>
    var servedCount: nat

    constructor (group: SampleGroup, decision: GroupDecision)
      ensures Value() == LiveStore.StoredValue(group, decision.status, decision.rejectionReason, 0)
    {
      this.group := group;
      state := decision.status;
      rejectionReason := decision.rejectionReason;
      servedCount := 0;
    }

    ghost function Value(): LiveStore.StoredValue
      reads this
    {
      LiveStore.StoredValue(group, state, rejectionReason, servedCount)
    }
  }

  class InMemoryLiveStore {
    var records: Dict<string, StoredGroup>

    ghost predicate Valid()
      reads this, records.at.Values
    {
      && records.Valid()
      && forall g, h :: g in records.at && h in records.at && g != h ==> records.at[g] != records.at[h]
    }

    /** The stored records as a value. */
    ghost function Model(): LiveStore.Store
      reads this, records.at.Values
    {
      Dict(records.keys, map g | g in records.at :: records.at[g].Value())
    }

    /** Changing one record changes the value stored under its id and nothing else. */
    twostate lemma RecordChanged(id: string)
      requires records == old(records) && id in records.at
      requires forall g :: g in records.at && g != id ==> records.at[g].Value() == old(records.at[g].Value())
      ensures Model() == old(Model()).Replace(id, records.at[id].Value())
    {
    }

    twostate lemma RecordAdded(id: string, new record: StoredGroup)
      requires id !in old(records.at) && records == old(records).Put(id, record)
      requires forall g :: g in old(records.at) ==> old(records.at[g]).Value() == old(records.at[g].Value())
      ensures Model() == old(Model()).Put(id, record.Value())
    {
      var before, after := old(Model()), Model();
      forall g | g in records.at
        ensures after.at[g] == if g == id then record.Value() else before.at[g]
      {
      }
    }

    twostate lemma RecordsGrow(id: string, new record: StoredGroup)
      requires old(Valid()) && id !in old(records.at) && records == old(records).Put(id, record)
      requires record !in old(records.at.Values)
      ensures Valid() && records.at.Values == old(records.at.Values) + {record}
    {
      assert records.at[id] == record;
      assert forall g :: g in old(records.at) ==>
        records.at[g] == old(records.at[g]) && records.at[g] in records.at.Values;
    }

    constructor ()
      ensures Valid() && Model() == EmptyDict()
      ensures records.at.Values == {}
    {
      records := EmptyDict();
    }

    method Submit(group: SampleGroup, decision: GroupDecision) returns (r: Result<StoredGroup>)
      requires Valid()
      modifies this
      ensures Valid()
      ensures match LiveStore.Submit(old(Model()), group, decision) {
        case Ok(s) => r.Ok? && fresh(r.value) && Model() == s
          && records.at.Values == old(records.at.Values) + {r.value} && records.at.Keys == s.at.Keys
          && records.at[group.groupId] == r.value
        case Raised(e) => r == Raised(e) && records == old(records) && Model() == old(Model())
      }
    {
      if decision.groupId != group.groupId {
        return Raised(InvalidValue);
      }
      if group.groupId in records.at {
        return Raised(DuplicateGroup);
      }
      var record := new StoredGroup(group, decision);
      records := records.Put(group.groupId, record);
      RecordAdded(group.groupId, record);
      RecordsGrow(group.groupId, record);
      r := Ok(record);
    }

    method Transition(groupId: string, newState: GroupStatus, reason: Option<RejectionReason>)
      returns (r: Result<StoredGroup>)
      requires Valid()
      modifies records.at.Values
      ensures Valid()
      ensures match LiveStore.Transition(old(Model()), groupId, newState, reason) {
        case Ok(s) => groupId in records.at && r == Ok(records.at[groupId]) && Model() == s
        case Raised(e) => r == Raised(e) && Model() == old(Model())
      }
    {
      if groupId !in records.at {
        return Raised(UnknownGroup);
      }
      var record := records.at[groupId];
      if record.state.Rejected? && !newState.Rejected? {
        return Raised(InvalidValue);
      }
      if newState.Rejected? && reason.None? {
        return Raised(InvalidValue);
      }
      if !newState.Rejected? && reason.Some? {
        return Raised(InvalidValue);
      }
      record.state := newState;
      record.rejectionReason := reason;
      RecordChanged(groupId);
      r := Ok(record);
    }

    /** The objects stored under a list of ids, in the same order. */
    ghost predicate AreRecordsOf(objects: seq<StoredGroup>, ids: seq<string>)
      reads this
    {
      |objects| == |ids| && forall k :: 0 <= k < |ids| ==> ids[k] in records.at && objects[k] == records.at[ids[k]]
    }

    /** What the loops below need to know about a record before they look at it. */
    lemma RecordAt(id: string)
      requires Valid()
      ensures Model().Valid() && Model().keys == records.keys && (id in records.at <==> id in Model().at)
      ensures id in records.keys <==> id in records.at
      ensures id in records.at ==> Model().at[id] == records.at[id].Value() && records.at[id] in records.at.Values
    {
    }

    /** `record.served_count += 1` */
    method CountServed(record: StoredGroup, ghost id: string)
      requires Valid() && id in records.at && records.at[id] == record
      modifies record
      ensures Valid() && id in old(Model()).at
      ensures Model() ==
        old(Model()).Replace(id, old(Model()).at[id].(servedCount := old(Model()).at[id].servedCount + 1))
    {
      record.servedCount := record.servedCount + 1;
      RecordChanged(id);
    }

    method GetBatch(maxGroups: int, includeQuarantined: bool) returns (batch: seq<StoredGroup>)
      requires Valid()
      modifies records.at.Values
      ensures Valid()
      ensures var q := LiveStore.Query(includeQuarantined, None, None, None);
        && Model() == LiveStore.Serve(old(Model()), q, maxGroups)
        && AreRecordsOf(batch, LiveStore.Batch(old(Model()), q, maxGroups))
    {
      hide LiveStore.Matching, LiveStore.Bump, LiveStore.Batch, Model, Valid;
      ghost var m := Model();
      RecordAt("");
      ghost var q := LiveStore.Query(includeQuarantined, None, None, None);
      LiveStore.BatchStart(m, q, maxGroups);
      batch := [];
      if maxGroups <= 0 {
        return;
      }
      ghost var taken: seq<string> := [];
      for i := 0 to |records.keys|
        invariant Valid() && m.Valid() && records == old(records)
        invariant taken == LiveStore.Matching(m.at, m.keys[..i], q) && |taken| < maxGroups
        invariant AreRecordsOf(batch, taken)
        invariant Model() == LiveStore.Bump(m, taken)
      {
        RecordAt(records.keys[i]);
        var record := records.at[records.keys[i]];
        LiveStore.MatchingStep(m, i, q);
        LiveStore.BumpOneMore(m, taken, records.keys[i]);
        if record.state.Accepted? || record.state.Correctable? || (includeQuarantined && record.state.Quarantined?) {
          batch := batch + [record];
          CountServed(record, records.keys[i]);
          taken := taken + [records.keys[i]];
          if |batch| >= maxGroups {
            LiveStore.BatchFull(m, i + 1, q, maxGroups);
            return;
          }
        }
      }
      LiveStore.BatchFull(m, |m.keys|, q, maxGroups);
    }

    static lemma {:induction false} EveryStatus(st: GroupStatus)
      ensures st in {Pending, Accepted, Correctable, Quarantined, Rejected}
    {
    }

    method CountByState() returns (counts: map<GroupStatus, nat>)
      requires Valid()
      ensures counts.Keys == {Pending, Accepted, Correctable, Quarantined, Rejected}
      ensures forall st :: st in counts ==> counts[st] == LiveStore.CountState(Model(), Model().keys, st)
    {
      hide Model, Valid;
      RecordAt("");
      counts := map[Pending := 0, Accepted := 0, Correctable := 0, Quarantined := 0, Rejected := 0];
      for i := 0 to |records.keys|
        invariant counts.Keys == {Pending, Accepted, Correctable, Quarantined, Rejected}
        invariant forall st :: st in counts ==> counts[st] == LiveStore.CountState(Model(), Model().keys[..i], st)
      {
        RecordAt(records.keys[i]);
        var record := records.at[records.keys[i]];
        ghost var m := Model();
        assert m.keys[..i + 1][..i] == m.keys[..i];
        EveryStatus(record.state);
        counts := counts[record.state := counts[record.state] + 1];
      }
      assert Model().keys[..|records.keys|] == Model().keys;
    }
  }

  datatype ReplayTier = Fresh | Replay

  class TrainerClient {
    const store: InMemoryLiveStore

    constructor (store: InMemoryLiveStore)
      ensures this.store == store
    {
      this.store := store;
    }

    static function FetchQuery(policyVersion: string, maxStaleness: Option<int>, precisionClass: Option<string>,
                               tier: ReplayTier): LiveStore.Query {
      LiveStore.Query(tier.Replay?, Some(policyVersion), maxStaleness, precisionClass)
    }

    /** First gathers the candidates without touching them, then counts each of them as served. */
    method Fetch(policyVersion: string, maxGroups: int, maxStaleness: Option<int>, precisionClass: Option<string>,
                 tier: ReplayTier) returns (groups: seq<StoredGroup>)
      requires store.Valid()
      modifies store.records.at.Values
      ensures store.Valid()
      ensures var q := FetchQuery(policyVersion, maxStaleness, precisionClass, tier);
        && store.Model() == LiveStore.Serve(old(store.Model()), q, maxGroups)
        && store.AreRecordsOf(groups, LiveStore.Batch(old(store.Model()), q, maxGroups))
    {
      hide LiveStore.Matching, LiveStore.Bump, LiveStore.Batch, InMemoryLiveStore.Model, InMemoryLiveStore.Valid;
      ghost var m := store.Model();
      store.RecordAt("");
      ghost var q := FetchQuery(policyVersion, maxStaleness, precisionClass, tier);
      LiveStore.BatchStart(m, q, maxGroups);
      groups := [];
      if maxGroups <= 0 {
        return;
      }
      groups := Candidates(policyVersion, maxGroups, maxStaleness, precisionClass, tier);
      ghost var ids := LiveStore.Batch(m, q, maxGroups);
      LiveStore.BatchIsFirstAdmitted(m, q, maxGroups);
      for j := 0 to |groups|
        invariant store.Valid() && store.records == old(store.records) && store.AreRecordsOf(groups, ids)
        invariant store.Model() == LiveStore.Bump(m, ids[..j])
      {
        DistinctPrefix(ids, j);
        LiveStore.BumpOneMore(m, ids[..j], ids[j]);
        store.RecordAt(ids[j]);
        store.CountServed(groups[j], ids[j]);
        assert ids[..j + 1] == ids[..j] + [ids[j]];
      }
      assert ids[..|ids|] == ids;
    }

    /** The gathering loop of `Fetch`. */
    method Candidates(policyVersion: string, maxGroups: int, maxStaleness: Option<int>, precisionClass: Option<string>,
                      tier: ReplayTier) returns (candidates: seq<StoredGroup>)
      requires store.Valid() && maxGroups > 0
      ensures store.AreRecordsOf(candidates, LiveStore.Batch(store.Model(),
                FetchQuery(policyVersion, maxStaleness, precisionClass, tier), maxGroups))
    {
      hide LiveStore.Matching, LiveStore.Batch, InMemoryLiveStore.Model, InMemoryLiveStore.Valid;
      var includeQuarantined := tier.Replay?;
      ghost var m := store.Model();
      store.RecordAt("");
      ghost var q := FetchQuery(policyVersion, maxStaleness, precisionClass, tier);
      LiveStore.BatchStart(m, q, maxGroups);
      candidates := [];
      for i := 0 to |store.records.keys|
        invariant store.AreRecordsOf(candidates, LiveStore.Matching(m.at, m.keys[..i], q))
        invariant |candidates| < maxGroups
      {
        store.RecordAt(store.records.keys[i]);
        var record := store.records.at[store.records.keys[i]];
        LiveStore.MatchingStep(m, i, q);
        if record.state.Rejected? { continue; }
        if record.state.Quarantined? && !includeQuarantined { continue; }
        if !(record.state.Accepted? || record.state.Correctable? || record.state.Quarantined?) { continue; }
        if record.group.policyVersion != policyVersion { continue; }
        if maxStaleness.Some? && record.group.policyLagSteps > maxStaleness.value { continue; }
        if precisionClass.Some? && record.group.precisionClass != precisionClass.value { continue; }
        candidates := candidates + [record];
        if |candidates| >= maxGroups {
          LiveStore.BatchFull(m, i + 1, q, maxGroups);
          return;
        }
      }
      LiveStore.BatchFull(m, |m.keys|, q, maxGroups);
    }
  }
}
