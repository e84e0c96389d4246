/** The in-memory LiveStore: what each operation does to the stored records, as functions on values. */
module LiveStore {
  import opened Wrappers
  import opened Dicts
  import opened Contracts

  datatype StoredValue = StoredValue(
    group: SampleGroup,
    state: GroupStatus,
    rejectionReason: Option<RejectionReason>,
    servedCount: nat)

  type Store = Dict<string, StoredValue>

  function Submit(s: Store, group: SampleGroup, decision: GroupDecision): Result<Store> {
    if decision.groupId != group.groupId then Raised(InvalidValue)
    else if group.groupId in s.at then Raised(DuplicateGroup)
    else Ok(s.Put(group.groupId, StoredValue(group, decision.status, decision.rejectionReason, 0)))
  }

  function Transition(s: Store, groupId: string, newState: GroupStatus, reason: Option<RejectionReason>)
    : Result<Store>
  {
    if groupId !in s.at then Raised(UnknownGroup)
    else if s.at[groupId].state.Rejected? && !newState.Rejected? then Raised(InvalidValue)
    else if newState.Rejected? && reason.None? then Raised(InvalidValue)
    else if !newState.Rejected? && reason.Some? then Raised(InvalidValue)
    else Ok(s.Put(groupId, s.at[groupId].(state := newState, rejectionReason := reason)))
  }

  /** What a consumer is willing to receive; `get_batch` leaves the last three fields open. */
  datatype Query = Query(
    admitQuarantined: bool,
    policyVersion: Option<string>,
    maxStaleness: Option<int>,
    precisionClass: Option<string>)

  predicate Admits(q: Query, r: StoredValue) {
    && (r.state.Accepted? || r.state.Correctable? || (r.state.Quarantined? && q.admitQuarantined))
    && (q.policyVersion.Some? ==> r.group.policyVersion == q.policyVersion.value)
    && (q.maxStaleness.Some? ==> r.group.policyLagSteps <= q.maxStaleness.value)
    && (q.precisionClass.Some? ==> r.group.precisionClass == q.precisionClass.value)
  }

  /** The ids among `ids` whose record the query admits, in the given order. */
  function Matching(at: map<string, StoredValue>, ids: seq<string>, q: Query): (r: seq<string>)
    requires forall id :: id in ids ==> id in at
  {
    if ids == [] then []
    else
      var n := |ids| - 1;
      Matching(at, ids[..n], q) + if Admits(q, at[ids[n]]) then [ids[n]] else []
  }

  function Batch(s: Store, q: Query, maxGroups: int): seq<string>
    requires s.Valid()
  {
    var all := Matching(s.at, s.keys, q);
    if maxGroups <= 0 then [] else if maxGroups < |all| then all[..maxGroups] else all
  }

  function Bump(s: Store, ids: seq<string>): (r: Store)
    ensures s.Valid() ==> r.Valid()
  {
    Dict(s.keys, map id | id in s.at ::
      if id in ids then s.at[id].(servedCount := s.at[id].servedCount + 1) else s.at[id])
  }

  function Serve(s: Store, q: Query, maxGroups: int): (r: Store)
    requires s.Valid()
    ensures r.Valid() && r.keys == s.keys
  {
    Bump(s, Batch(s, q, maxGroups))
  }

  /** `served_count` summed over the records stored under `ids`. */
  function TotalServed(at: map<string, StoredValue>, ids: seq<string>): nat
    requires forall id :: id in ids ==> id in at
  {
    if ids == [] then 0
    else TotalServed(at, ids[..|ids| - 1]) + at[ids[|ids| - 1]].servedCount
  }

  // ----- which records a query selects

  lemma {:induction false} MatchingMembers(at: map<string, StoredValue>, ids: seq<string>, q: Query)
    requires forall id :: id in ids ==> id in at
    ensures forall id :: id in Matching(at, ids, q) <==> id in ids && Admits(q, at[id])
  {
    if ids == [] {
    } else {
      var n := |ids| - 1;
      MatchingMembers(at, ids[..n], q);
      assert ids == ids[..n] + [ids[n]];
    }
  }

  /** Matching keeps the order of the listing: each selected id comes from a later position. */
  lemma {:induction false} MatchingDistinct(at: map<string, StoredValue>, ids: seq<string>, q: Query)
    requires Distinct(ids)
    requires forall id :: id in ids ==> id in at
    ensures Distinct(Matching(at, ids, q))
  {
    if ids == [] {
    } else {
      var n := |ids| - 1;
      DistinctPrefix(ids, n);
      MatchingDistinct(at, ids[..n], q);
      MatchingMembers(at, ids[..n], q);
    }
  }

  lemma {:induction false} MatchingPrefix(at: map<string, StoredValue>, ids: seq<string>, n: nat, q: Query)
    requires n <= |ids|
    requires forall id :: id in ids ==> id in at
    ensures Matching(at, ids[..n], q) <= Matching(at, ids, q)
  {
    if n < |ids| {
      var m := |ids| - 1;
      assert ids[..m][..n] == ids[..n];
      MatchingPrefix(at, ids[..m], n, q);
    } else {
      assert ids[..n] == ids;
    }
  }

  /** Where an id stands in a listing. */
  function Position(ids: seq<string>, id: string): (i: nat)
    requires id in ids
    ensures i < |ids| && ids[i] == id
  {
    if ids[|ids| - 1] == id then |ids| - 1 else Position(ids[..|ids| - 1], id)
  }

  /**
   Independent reading of a batch: it consists of admitted records, no record twice, and an
   admitted record that was passed over stands behind every record that was taken, and only
   because the batch is full. So a batch is the first `maxGroups` admitted records in FIFO order.
   */
  lemma {:induction false} BatchIsFirstAdmitted(s: Store, q: Query, maxGroups: int)
    requires s.Valid()
    ensures forall id :: id in Batch(s, q, maxGroups) ==> id in s.at && Admits(q, s.at[id])
    ensures Distinct(Batch(s, q, maxGroups))
    ensures |Batch(s, q, maxGroups)| <= if maxGroups <= 0 then 0 else maxGroups
    ensures forall i, j :: 0 <= i < j < |Batch(s, q, maxGroups)| ==>
      Position(s.keys, Batch(s, q, maxGroups)[i]) < Position(s.keys, Batch(s, q, maxGroups)[j])
    ensures forall id, taken | id in s.at && Admits(q, s.at[id]) && id !in Batch(s, q, maxGroups)
      && taken in Batch(s, q, maxGroups) ::
      Position(s.keys, taken) < Position(s.keys, id)
    ensures (exists id :: id in s.at && Admits(q, s.at[id]) && id !in Batch(s, q, maxGroups)) ==>
      |Batch(s, q, maxGroups)| == if maxGroups <= 0 then 0 else maxGroups
  {
    var all := Matching(s.at, s.keys, q);
    MatchingMembers(s.at, s.keys, q);
    MatchingDistinct(s.at, s.keys, q);
    MatchingOrdered(s, s.keys, q);
    forall id, taken | id in s.at && Admits(q, s.at[id]) && id !in Batch(s, q, maxGroups)
      && taken in Batch(s, q, maxGroups)
      ensures Position(s.keys, taken) < Position(s.keys, id)
    {
      var j :| 0 <= j < |all| && all[j] == id;
      var i :| 0 <= i < |Batch(s, q, maxGroups)| && Batch(s, q, maxGroups)[i] == taken;
      assert all[i] == taken;
    }
  }

  lemma {:induction false} MatchingOrdered(s: Store, ids: seq<string>, q: Query)
    requires s.Valid() && ids <= s.keys
    ensures forall id :: id in ids ==> id in s.at
    ensures forall id :: id in Matching(s.at, ids, q) ==> id in s.keys
    ensures forall i, j :: 0 <= i < j < |Matching(s.at, ids, q)| ==>
      Position(s.keys, Matching(s.at, ids, q)[i]) < Position(s.keys, Matching(s.at, ids, q)[j])
    ensures forall id :: id in Matching(s.at, ids, q) ==> Position(s.keys, id) < |ids|
  {
    if ids == [] {
    } else {
      var n := |ids| - 1;
      MatchingOrdered(s, ids[..n], q);
      var k := Position(s.keys, ids[n]);
      assert s.keys[k] == ids[n] == s.keys[n];
      assert k == n;
    }
  }

  // ----- serving

  lemma {:induction false} BumpTotal(s: Store, ids: seq<string>, served: seq<string>)
    requires s.Valid() && Distinct(ids)
    requires forall id :: id in ids ==> id in s.at
    ensures TotalServed(Bump(s, served).at, ids)
      == TotalServed(s.at, ids) + |set id | id in ids && id in served|
  {
    var hit := set id | id in ids && id in served;
    if ids == [] {
      assert hit == {};
    } else {
      var n := |ids| - 1;
      DistinctPrefix(ids, n);
      BumpTotal(s, ids[..n], served);
      var before := set id | id in ids[..n] && id in served;
      assert ids == ids[..n] + [ids[n]];
      assert hit == if ids[n] in served then before + {ids[n]} else before;
    }
  }

  /** One batch adds exactly its own length to the served counts. */
  lemma {:induction false} ServeConserves(s: Store, q: Query, maxGroups: int)
    requires s.Valid()
    ensures TotalServed(Serve(s, q, maxGroups).at, s.keys)
      == TotalServed(s.at, s.keys) + |Batch(s, q, maxGroups)|
  {
    var batch := Batch(s, q, maxGroups);
    BatchIsFirstAdmitted(s, q, maxGroups);
    BumpTotal(s, s.keys, batch);
    var hit := set id | id in s.keys && id in batch;
    DistinctCardinality(batch, hit);
  }

  lemma {:induction false} TotalServedFrame(a: map<string, StoredValue>, b: map<string, StoredValue>, ids: seq<string>)
    requires forall id :: id in ids ==> id in a && id in b && a[id].servedCount == b[id].servedCount
    ensures TotalServed(a, ids) == TotalServed(b, ids)
  {
    if ids == [] {
    } else {
      TotalServedFrame(a, b, ids[..|ids| - 1]);
    }
  }

  /**
   A filter that every stored record passes changes nothing: when all records share the
   requested version and no other filter is set, the trainer's query serves what `get_batch` serves.
   */
  lemma {:induction false} VersionFilterIsIdle(s: Store, version: string, admitQuarantined: bool, maxGroups: int)
    requires s.Valid()
    requires forall id :: id in s.at ==> s.at[id].group.policyVersion == version
    ensures Batch(s, Query(admitQuarantined, Some(version), None, None), maxGroups)
      == Batch(s, Query(admitQuarantined, None, None, None), maxGroups)
    ensures Serve(s, Query(admitQuarantined, Some(version), None, None), maxGroups)
      == Serve(s, Query(admitQuarantined, None, None, None), maxGroups)
  {
    MatchingSame(s.at, s.keys, Query(admitQuarantined, Some(version), None, None),
                 Query(admitQuarantined, None, None, None));
  }

  lemma {:induction false} MatchingSame(at: map<string, StoredValue>, ids: seq<string>, p: Query, q: Query)
    requires forall id :: id in ids ==> id in at
    requires forall id :: id in ids ==> (Admits(p, at[id]) <==> Admits(q, at[id]))
    ensures Matching(at, ids, p) == Matching(at, ids, q)
  {
    if ids == [] {
    } else {
      MatchingSame(at, ids[..|ids| - 1], p, q);
    }
  }

  // ----- one turn of a serving loop

  lemma {:induction false} MatchingStep(s: Store, i: nat, q: Query)
    requires s.Valid() && i < |s.keys|
    ensures Matching(s.at, s.keys[..i + 1], q) ==
      Matching(s.at, s.keys[..i], q) + (if Admits(q, s.at[s.keys[i]]) then [s.keys[i]] else [])
    ensures s.keys[i] !in Matching(s.at, s.keys[..i], q)
  {
    assert s.keys[..i + 1][..i] == s.keys[..i];
    DistinctPrefix(s.keys, i);
    MatchingMembers(s.at, s.keys[..i], q);
  }

  lemma {:induction false} BatchStart(s: Store, q: Query, maxGroups: int)
    requires s.Valid()
    ensures Matching(s.at, s.keys[..0], q) == [] && Bump(s, []) == s
    ensures maxGroups <= 0 ==> Batch(s, q, maxGroups) == []
  {
  }

  lemma {:induction false} BatchFull(s: Store, i: nat, q: Query, maxGroups: int)
    requires s.Valid() && i <= |s.keys| && maxGroups > 0
    requires |Matching(s.at, s.keys[..i], q)| == maxGroups
      || (i == |s.keys| && |Matching(s.at, s.keys[..i], q)| < maxGroups)
    ensures Batch(s, q, maxGroups) == Matching(s.at, s.keys[..i], q)
  {
    MatchingPrefix(s.at, s.keys, i, q);
    assert s.keys[..|s.keys|] == s.keys;
  }

  lemma {:induction false} BumpOneMore(s: Store, ids: seq<string>, id: string)
    requires id in s.at && id !in ids
    ensures id in Bump(s, ids).at && Bump(s, ids).at[id] == s.at[id]
    ensures Bump(s, ids + [id]) ==
      Bump(s, ids).Replace(id, s.at[id].(servedCount := s.at[id].servedCount + 1))
  {
  }

  // ----- counting

  function CountState(s: Store, ids: seq<string>, state: GroupStatus): nat
    requires forall id :: id in ids ==> id in s.at
  {
    if ids == [] then 0
    else
      CountState(s, ids[..|ids| - 1], state) + if s.at[ids[|ids| - 1]].state == state then 1 else 0
  }

  /** The five counts add up to the size of the store. */
  lemma {:induction false} CountsAddUp(s: Store, ids: seq<string>)
    requires forall id :: id in ids ==> id in s.at
    ensures CountState(s, ids, Pending) + CountState(s, ids, Accepted) + CountState(s, ids, Correctable)
      + CountState(s, ids, Quarantined) + CountState(s, ids, Rejected) == |ids|
  {
    if ids == [] {
    } else {
      CountsAddUp(s, ids[..|ids| - 1]);
    }
  }
}
