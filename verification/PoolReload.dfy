/** Quorum bookkeeping for weight reloads: who acknowledged which version, and which version the pool serves. */
module PoolReload {
  import opened Wrappers
  import opened Dicts

  datatype ReloadAck = ReloadAck(workerId: string, policyVersion: string, checkpointDigest: string)

  datatype Tracker = Tracker(acks: Dict<string, ReloadAck>, digestByVersion: map<string, string>)

  function Record(t: Tracker, ack: ReloadAck): Result<Tracker> {
    if ack.policyVersion in t.digestByVersion && t.digestByVersion[ack.policyVersion] != ack.checkpointDigest
    then Raised(QuorumViolation)
    else
      Ok(Tracker(t.acks.Put(ack.workerId, ack), t.digestByVersion[ack.policyVersion := ack.checkpointDigest]))
  }

  function WorkersAcked(t: Tracker, version: string): set<string> {
    set w | w in t.acks.at && t.acks.at[w].policyVersion == version
  }

  function AckCount(t: Tracker, version: string): nat {
    |WorkersAcked(t, version)|
  }

  function HasQuorum(t: Tracker, version: string, k: int, n: Option<int>): Result<bool> {
    if k <= 0 then Raised(InvalidValue)
    else if n.Some? && n.value < k then Raised(InvalidValue)
    else Ok(AckCount(t, version) >= k)
  }

  /** The versions of the current acks in the order of the workers' first registration. */
  function KnownVersions(acks: map<string, ReloadAck>, workers: seq<string>): seq<string>
    requires forall w :: w in workers ==> w in acks
  {
    if workers == [] then []
    else Enroll(KnownVersions(acks, workers[..|workers| - 1]), acks[workers[|workers| - 1]].policyVersion)
  }

  function FirstWithQuorum(t: Tracker, candidates: seq<string>, k: int, n: Option<int>): Result<Option<string>> {
    if candidates == [] then Ok(None)
    else
      match HasQuorum(t, candidates[0], k, n)
      case Raised(e) => Raised(e)
      case Ok(yes) => if yes then Ok(Some(candidates[0])) else FirstWithQuorum(t, candidates[1..], k, n)
  }

  function Reversed(s: seq<string>): seq<string> {
    if s == [] then [] else Reversed(s[1..]) + [s[0]]
  }

  function Candidates(t: Tracker, candidates: Option<seq<string>>): seq<string>
    requires t.acks.Valid()
  {
    if candidates.Some? then candidates.value else Reversed(KnownVersions(t.acks.at, t.acks.keys))
  }

  function PoolActiveVersion(t: Tracker, k: int, n: Option<int>, candidates: Option<seq<string>>)
    : Result<Option<string>>
    requires t.acks.Valid()
  {
    FirstWithQuorum(t, Candidates(t, candidates), k, n)
  }

  class PoolReloadTracker {
    var acks: Dict<string, ReloadAck>
    var digestByVersion: map<string, string>

    ghost predicate Valid()
      reads this
    {
      acks.Valid() && forall w :: w in acks.at ==> acks.at[w].workerId == w
    }

    function Model(): Tracker
      reads this
    {
      Tracker(acks, digestByVersion)
    }

    constructor ()
      ensures Valid() && Model() == Tracker(EmptyDict(), map[])
    {
      acks, digestByVersion := EmptyDict(), map[];
    }

    method RecordAck(ack: ReloadAck) returns (r: Result<()>)
      requires Valid()
      modifies this
      ensures Valid()
      ensures match Record(old(Model()), ack) {
        case Ok(t) => r.Ok? && Model() == t
        case Raised(e) => r == Raised(e) && Model() == old(Model())
      }
    {
      if ack.policyVersion !in digestByVersion {
        digestByVersion := digestByVersion[ack.policyVersion := ack.checkpointDigest];
      } else if digestByVersion[ack.policyVersion] != ack.checkpointDigest {
        return Raised(QuorumViolation);
      }
      acks := acks.Put(ack.workerId, ack);
      assert digestByVersion == old(digestByVersion)[ack.policyVersion := ack.checkpointDigest];
      r := Ok(());
    }

    /** Counts the acks of one version, one worker after the other. */
    method CountAcks(version: string) returns (count: nat)
      requires Valid()
      ensures count == AckCount(Model(), version)
    {
      count := 0;
      ghost var seen: set<string> := {};
      for i := 0 to |acks.keys|
        invariant seen == (set w | w in acks.keys[..i] && acks.at[w].policyVersion == version)
        invariant count == |seen|
      {
        DistinctPrefix(acks.keys, i);
        assert acks.keys[..i + 1] == acks.keys[..i] + [acks.keys[i]];
        if acks.at[acks.keys[i]].policyVersion == version {
          count := count + 1;
          seen := seen + {acks.keys[i]};
        }
      }
      assert acks.keys[..|acks.keys|] == acks.keys;
      assert seen == WorkersAcked(Model(), version);
    }

    method ListVersions() returns (seen: seq<string>)
      requires Valid()
      ensures seen == KnownVersions(acks.at, acks.keys)
    {
      seen := [];
      for i := 0 to |acks.keys|
        invariant seen == KnownVersions(acks.at, acks.keys[..i])
      {
        assert acks.keys[..i + 1][..i] == acks.keys[..i];
        var version := acks.at[acks.keys[i]].policyVersion;
        if version !in seen {
          seen := seen + [version];
        }
      }
      assert acks.keys[..|acks.keys|] == acks.keys;
    }

    method CheckQuorum(version: string, k: int, n: Option<int>) returns (r: Result<bool>)
      requires Valid()
      ensures r == HasQuorum(Model(), version, k, n)
    {
      if k <= 0 {
        return Raised(InvalidValue);
      }
      if n.Some? && n.value < k {
        return Raised(InvalidValue);
      }
      var count := CountAcks(version);
      r := Ok(count >= k);
    }

    method ActiveVersion(k: int, n: Option<int>, candidates: Option<seq<string>>) returns (r: Result<Option<string>>)
      requires Valid()
      ensures r == PoolActiveVersion(Model(), k, n, candidates)
    {
      var versions: seq<string>;
      if candidates.Some? {
        versions := candidates.value;
      } else {
        var known := ListVersions();
        versions := Reversed(known);
      }
      for i := 0 to |versions|
        invariant FirstWithQuorum(Model(), versions, k, n) == FirstWithQuorum(Model(), versions[i..], k, n)
      {
        assert versions[i..][1..] == versions[i + 1..];
        var quorum := CheckQuorum(versions[i], k, n);
        if quorum.Raised? {
          return Raised(quorum.error);
        }
        if quorum.value {
          return Ok(Some(versions[i]));
        }
      }
      r := Ok(None);
    }
  }

  // ----- runs

  /** A refused acknowledgement leaves the tracker as it was. */
  function RunAcks(t: Tracker, acks: seq<ReloadAck>): Tracker {
    if acks == [] then t
    else
      var before := RunAcks(t, acks[..|acks| - 1]);
      match Record(before, acks[|acks| - 1])
      case Ok(after) => after
      case Raised(_) => before
  }

  /** Current acks are filed under their worker and carry the digest on record for their version. */
  ghost predicate TrackerInv(t: Tracker) {
    && t.acks.Valid()
    && forall w :: w in t.acks.at ==>
         && t.acks.at[w].workerId == w
         && t.acks.at[w].policyVersion in t.digestByVersion
         && t.digestByVersion[t.acks.at[w].policyVersion] == t.acks.at[w].checkpointDigest
  }

  /** In every run: one digest per version for good, and workers are never forgotten. */
  lemma {:induction false} RunKeepsDigests(t: Tracker, acks: seq<ReloadAck>)
    requires TrackerInv(t)
    ensures var r := RunAcks(t, acks);
      && TrackerInv(r) && t.acks.at.Keys <= r.acks.at.Keys
      && forall v :: v in t.digestByVersion ==> v in r.digestByVersion && r.digestByVersion[v] == t.digestByVersion[v]
  {
    if acks == [] {
    } else {
      RunKeepsDigests(t, acks[..|acks| - 1]);
    }
  }

  /** All current acks of one version carry one digest, whatever acks were offered. */
  lemma {:induction false} OneDigestPerVersion(acks: seq<ReloadAck>, x: string, y: string)
    requires var r := RunAcks(Tracker(EmptyDict(), map[]), acks);
      x in r.acks.at && y in r.acks.at && r.acks.at[x].policyVersion == r.acks.at[y].policyVersion
    ensures var r := RunAcks(Tracker(EmptyDict(), map[]), acks);
      r.acks.at[x].checkpointDigest == r.acks.at[y].checkpointDigest
  {
    RunKeepsDigests(Tracker(EmptyDict(), map[]), acks);
  }

  /**
   An acknowledgement is refused exactly when its version is on record with another digest. An accepted
   one becomes the current ack of its worker, who keeps his place or comes last, and puts the digest
   on record; the acks of the other workers and the other digests are as before.
   */
  lemma RecordLaw(t: Tracker, ack: ReloadAck)
    requires t.acks.Valid()
    ensures var v, w, r := ack.policyVersion, ack.workerId, Record(t, ack);
      if v in t.digestByVersion && t.digestByVersion[v] != ack.checkpointDigest then r == Raised(QuorumViolation)
      else
        && r.Ok? && r.value.acks.Valid()
        && r.value.acks.keys == (if w in t.acks.keys then t.acks.keys else t.acks.keys + [w])
        && r.value.acks.at.Keys == t.acks.at.Keys + {w} && r.value.acks.at[w] == ack
        && (forall x :: x in t.acks.at && x != w ==> r.value.acks.at[x] == t.acks.at[x])
        && r.value.digestByVersion.Keys == t.digestByVersion.Keys + {v}
        && r.value.digestByVersion[v] == ack.checkpointDigest
        && forall u :: u in t.digestByVersion ==> r.value.digestByVersion[u] == t.digestByVersion[u]
  {
  }

  // ----- quorums

  /** A quorum is asked for with a positive k not above n; it holds when k workers have a current ack of the version. */
  lemma QuorumLaw(t: Tracker, version: string, k: int, n: Option<int>)
    ensures var r := HasQuorum(t, version, k, n);
      if k <= 0 || (n.Some? && k > n.value) then r == Raised(InvalidValue)
      else r == Ok(|set w | w in t.acks.at.Keys && t.acks.at[w].policyVersion == version| >= k)
  {
    assert WorkersAcked(t, version) == set w | w in t.acks.at.Keys && t.acks.at[w].policyVersion == version;
  }

  lemma {:induction false} TwoLargeSetsMeet(a: set<string>, b: set<string>, all: set<string>)
    requires a <= all && b <= all && |a| + |b| > |all|
    ensures a * b != {}
  {
    assert all == (a + b) + (all - (a + b));
    assert |a + b| + |a * b| == |a| + |b|;
  }

  /**
   Two versions that reach a quorum of more than half of the workers, even at different times,
   share a worker; if the versions differ, that worker moved from one to the other in between.
   */
  lemma {:induction false} QuorumsShareWorker(t: Tracker, acks: seq<ReloadAck>, v: string, u: string, k: int, n: int)
    returns (w: string)
    requires TrackerInv(t) && |RunAcks(t, acks).acks.at.Keys| <= n < 2 * k
    requires AckCount(t, v) >= k && AckCount(RunAcks(t, acks), u) >= k
    ensures w in WorkersAcked(t, v) && w in WorkersAcked(RunAcks(t, acks), u)
  {
    RunKeepsDigests(t, acks);
    var r := RunAcks(t, acks);
    TwoLargeSetsMeet(WorkersAcked(t, v), WorkersAcked(r, u), r.acks.at.Keys);
    w :| w in WorkersAcked(t, v) * WorkersAcked(r, u);
  }

  /** With at most n < 2k workers at most one version has a quorum at a time. */
  lemma {:induction false} OneQuorumAtATime(t: Tracker, v: string, u: string, k: int, n: int)
    requires TrackerInv(t) && |t.acks.at.Keys| <= n < 2 * k
    requires HasQuorum(t, v, k, Some(n)) == Ok(true) && HasQuorum(t, u, k, Some(n)) == Ok(true)
    ensures u == v
  {
    var w := QuorumsShareWorker(t, [], v, u, k, n);
  }

  // ----- the active version

  /**
   The search raises exactly when it must ask with bad numbers; otherwise it finds the first candidate
   with a quorum.
   */
  lemma {:induction false} FirstQuorumFound(t: Tracker, candidates: seq<string>, k: int, n: Option<int>)
    ensures var r := FirstWithQuorum(t, candidates, k, n);
      && (r.Raised? <==> candidates != [] && (k <= 0 || (n.Some? && n.value < k)))
      && (r.Ok? && r.value.None? && candidates != [] ==> forall c :: c in candidates ==> AckCount(t, c) < k)
      && (r.Ok? && r.value.Some? ==>
            exists i :: 0 <= i < |candidates| && candidates[i] == r.value.value && AckCount(t, candidates[i]) >= k
              && forall j :: 0 <= j < i ==> AckCount(t, candidates[j]) < k)
  {
    hide AckCount;
    if candidates == [] {
    } else {
      FirstQuorumFound(t, candidates[1..], k, n);
      var r := FirstWithQuorum(t, candidates, k, n);
      if r.Ok? && AckCount(t, candidates[0]) < k {
        if r.value.Some? {
          var i :| 0 <= i < |candidates[1..]| && candidates[1..][i] == r.value.value
            && AckCount(t, candidates[1..][i]) >= k && forall j :: 0 <= j < i ==> AckCount(t, candidates[1..][j]) < k;
          forall j | 0 <= j < i + 1 ensures AckCount(t, candidates[j]) < k {
            if j > 0 { assert candidates[j] == candidates[1..][j - 1]; }
          }
          assert candidates[i + 1] == r.value.value;
        } else {
          assert forall c :: c in candidates <==> c == candidates[0] || c in candidates[1..];
        }
      }
    }
  }

  lemma {:induction false} KnownVersionsExact(acks: map<string, ReloadAck>, workers: seq<string>)
    requires forall w :: w in workers ==> w in acks
    ensures Distinct(KnownVersions(acks, workers))
    ensures forall v :: v in KnownVersions(acks, workers) <==> exists w :: w in workers && acks[w].policyVersion == v
  {
    if workers == [] {
    } else {
      var n := |workers| - 1;
      KnownVersionsExact(acks, workers[..n]);
      assert forall w :: w in workers <==> w in workers[..n] || w == workers[n];
      forall v ensures v in KnownVersions(acks, workers) <==> exists w :: w in workers && acks[w].policyVersion == v {
        if v == acks[workers[n]].policyVersion {
          assert workers[n] in workers;
        } else if v in KnownVersions(acks, workers[..n]) {
          var w :| w in workers[..n] && acks[w].policyVersion == v;
          assert w in workers;
        }
      }
    }
  }

  lemma {:induction false} ReversedMembers(s: seq<string>)
    ensures forall x :: x in Reversed(s) <==> x in s
  {
    if s == [] {
    } else {
      ReversedMembers(s[1..]);
      assert forall x :: x in s <==> x == s[0] || x in s[1..];
    }
  }

  /**
   The version with a majority quorum is the active one, for every candidate list that names it and for
   the default list.
   */
  lemma {:induction false} MajorityIsActive(t: Tracker, v: string, k: int, n: int, candidates: Option<seq<string>>)
    requires TrackerInv(t) && |t.acks.at.Keys| <= n < 2 * k && k <= n && AckCount(t, v) >= k
    requires candidates.Some? ==> v in candidates.value
    ensures PoolActiveVersion(t, k, Some(n), candidates) == Ok(Some(v))
  {
    var list := Candidates(t, candidates);
    if candidates.None? {
      KnownVersionsExact(t.acks.at, t.acks.keys);
      ReversedMembers(KnownVersions(t.acks.at, t.acks.keys));
      var w :| w in WorkersAcked(t, v);
      assert w in t.acks.keys;
    }
    assert v in list;
    FirstQuorumFound(t, list, k, Some(n));
    var r := FirstWithQuorum(t, list, k, Some(n)).value;
    if r.Some? {
      OneQuorumAtATime(t, v, r.value, k, n);
    }
  }

  // ----- the default order

  /** The position of the first worker whose current ack is for version v; the number of workers if there is none. */
  function FirstHolder(acks: map<string, ReloadAck>, workers: seq<string>, v: string): (p: nat)
    requires forall w :: w in workers ==> w in acks
    ensures p <= |workers| && forall q :: 0 <= q < p ==> acks[workers[q]].policyVersion != v
    ensures p < |workers| ==> acks[workers[p]].policyVersion == v
  {
    if workers == [] then 0
    else
      var n := |workers| - 1;
      var p := FirstHolder(acks, workers[..n], v);
      if p < n || acks[workers[n]].policyVersion == v then p else p + 1
  }

  /** The known versions stand in the order of their first holders. */
  lemma {:induction false} KnownByFirstHolder(acks: map<string, ReloadAck>, workers: seq<string>)
    requires forall w :: w in workers ==> w in acks
    ensures var known := KnownVersions(acks, workers);
      && (forall v :: v in known ==> FirstHolder(acks, workers, v) < |workers|)
      && forall i, j :: 0 <= i < j < |known| ==>
           FirstHolder(acks, workers, known[i]) < FirstHolder(acks, workers, known[j])
  {
    if workers == [] {
    } else {
      var n := |workers| - 1;
      var before, v := KnownVersions(acks, workers[..n]), acks[workers[n]].policyVersion;
      KnownByFirstHolder(acks, workers[..n]);
      forall u | u in before ensures FirstHolder(acks, workers, u) == FirstHolder(acks, workers[..n], u) < n {
        HolderStays(acks, workers, u);
      }
      if v !in before {
        UnknownHolder(acks, workers, v);
      }
      hide FirstHolder;
    }
  }

  lemma HolderStays(acks: map<string, ReloadAck>, workers: seq<string>, v: string)
    requires workers != [] && forall w :: w in workers ==> w in acks
    ensures var n := |workers| - 1;
      FirstHolder(acks, workers[..n], v) < n ==> FirstHolder(acks, workers, v) == FirstHolder(acks, workers[..n], v)
  {
  }

  lemma UnknownHolder(acks: map<string, ReloadAck>, workers: seq<string>, v: string)
    requires workers != [] && forall w :: w in workers ==> w in acks
    requires v !in KnownVersions(acks, workers[..|workers| - 1]) && acks[workers[|workers| - 1]].policyVersion == v
    ensures FirstHolder(acks, workers, v) == |workers| - 1
  {
    hide KnownVersions;
    KnownVersionsExact(acks, workers[..|workers| - 1]);
  }

  lemma {:induction false} ReversedAt(s: seq<string>, i: nat)
    requires i < |s|
    ensures |Reversed(s)| == |s| && Reversed(s)[i] == s[|s| - 1 - i]
  {
    if i == |s| - 1 {
      ReversedLength(s[1..]);
    } else {
      ReversedAt(s[1..], i);
    }
  }

  lemma {:induction false} ReversedLength(s: seq<string>)
    ensures |Reversed(s)| == |s|
  {
    if s == [] {
    } else {
      ReversedLength(s[1..]);
    }
  }

  function FirstPosition(t: Tracker, v: string): nat
    requires t.acks.Valid()
  {
    FirstHolder(t.acks.at, t.acks.keys, v)
  }

  lemma {:induction false} QuorumIsKnown(t: Tracker, v: string, k: int)
    requires t.acks.Valid() && k > 0 && AckCount(t, v) >= k
    ensures v in KnownVersions(t.acks.at, t.acks.keys)
  {
    KnownVersionsExact(t.acks.at, t.acks.keys);
    var w :| w in WorkersAcked(t, v);
    assert w in t.acks.keys;
  }

  /** Behind its place in the default list a version only has ones whose first holders stand before its own. */
  lemma {:induction false} DefaultOrder(t: Tracker, i: nat, j: nat)
    requires t.acks.Valid() && i < j < |Candidates(t, None)|
    ensures FirstPosition(t, Candidates(t, None)[j]) < FirstPosition(t, Candidates(t, None)[i])
  {
    var known := KnownVersions(t.acks.at, t.acks.keys);
    ReversedLength(known);
    ReversedAt(known, i);
    ReversedAt(known, j);
    KnownByFirstHolder(t.acks.at, t.acks.keys);
  }

  /**
   What the default list answers, exactly: among the versions with a quorum the one whose first
   holder is registered last.
   */
  lemma {:induction false} DefaultAnswer(t: Tracker, v: string, k: int, n: Option<int>)
    requires t.acks.Valid() && k > 0 && (n.Some? ==> k <= n.value) && AckCount(t, v) >= k
    ensures PoolActiveVersion(t, k, n, None) == Ok(Some(v)) <==>
      forall u :: AckCount(t, u) >= k && u != v ==> FirstPosition(t, u) < FirstPosition(t, v)
  {
    hide AckCount, FirstPosition, KnownVersions, Reversed;
    var list := Candidates(t, None);
    FirstQuorumFound(t, list, k, n);
    QuorumIsListed(t, v, k);
    var i :| 0 <= i < |list| && PoolActiveVersion(t, k, n, None) == Ok(Some(list[i])) && AckCount(t, list[i]) >= k
      && forall j :: 0 <= j < i ==> AckCount(t, list[j]) < k;
    forall u | AckCount(t, u) >= k && u != list[i] ensures FirstPosition(t, u) < FirstPosition(t, list[i]) {
      QuorumIsListed(t, u, k);
      var j :| 0 <= j < |list| && list[j] == u;
      DefaultOrder(t, i, j);
    }
  }

  lemma {:induction false} QuorumIsListed(t: Tracker, v: string, k: int)
    requires t.acks.Valid() && k > 0 && AckCount(t, v) >= k
    ensures v in Candidates(t, None)
  {
    QuorumIsKnown(t, v, k);
    ReversedMembers(KnownVersions(t.acks.at, t.acks.keys));
  }

  /**
   The documentation promises the newest version with a quorum. With the default list that is what
   comes out exactly when its first holder is registered behind the first holder of every older
   version with a quorum.
   */
  lemma {:induction false} DefaultIsNewestIff(t: Tracker, age: string -> int, v: string, k: int, n: Option<int>)
    requires t.acks.Valid() && k > 0 && (n.Some? ==> k <= n.value) && AckCount(t, v) >= k
    requires forall u :: AckCount(t, u) >= k && u != v ==> age(u) < age(v)
    ensures PoolActiveVersion(t, k, n, None) == Ok(Some(v)) <==>
      forall u :: AckCount(t, u) >= k && age(u) < age(v) ==> FirstPosition(t, u) < FirstPosition(t, v)
  {
    hide AckCount, FirstPosition, PoolActiveVersion;
    DefaultAnswer(t, v, k, n);
  }

  /**
   It does fail, in a state that acknowledgements lead to: workers a and b load the older version
   and a moves on to the newer one; both have a quorum of one, and the older is answered.
   */
  lemma DefaultOrderIsNotByAge(a: string, b: string, older: string, newer: string, d: string, e: string)
    requires a != b && older != newer
    ensures var t := RunAcks(Tracker(EmptyDict(), map[]),
                             [ReloadAck(a, older, d), ReloadAck(b, older, d), ReloadAck(a, newer, e)]);
      && t.acks.Valid() && AckCount(t, newer) == 1 && AckCount(t, older) == 1
      && PoolActiveVersion(t, 1, Some(2), None) == Ok(Some(older))
  {
    var x, y, z := ReloadAck(a, older, d), ReloadAck(b, older, d), ReloadAck(a, newer, e);
    var t := RunAcks(Tracker(EmptyDict(), map[]), [x, y, z]);
    MovedOn(x, y, z);
    assert WorkersAcked(t, newer) == {a} && WorkersAcked(t, older) == {b};
    assert FirstPosition(t, newer) == 0 && FirstPosition(t, older) == 1 by {
      assert [a, b][..1] == [a] && [a][..0] == [];
      assert FirstHolder(t.acks.at, [a], older) == 1;
      assert FirstHolder(t.acks.at, [a], newer) == 0;
    }
    forall u | AckCount(t, u) >= 1 && u != older ensures u == newer {
      var w :| w in WorkersAcked(t, u);
    }
    DefaultAnswer(t, older, 1, Some(2));
  }

  lemma MovedOn(x: ReloadAck, y: ReloadAck, z: ReloadAck)
    requires x.workerId == z.workerId != y.workerId
    requires x.policyVersion == y.policyVersion != z.policyVersion && x.checkpointDigest == y.checkpointDigest
    ensures var t := RunAcks(Tracker(EmptyDict(), map[]), [x, y, z]);
      && t.acks.keys == [x.workerId, y.workerId] && t.acks.at == map[x.workerId := z, y.workerId := y] && t.acks.Valid()
  {
    hide RunAcks;
    var start := Tracker(EmptyDict(), map[]);
    TwoAgree(x, y);
    OneMoreAck(start, [x, y], z);
    assert [x, y] + [z] == [x, y, z];
    assert map[x.workerId := x, y.workerId := y][z.workerId := z] == map[x.workerId := z, y.workerId := y];
  }

  lemma FirstAck(x: ReloadAck)
    ensures RunAcks(Tracker(EmptyDict(), map[]), [x])
         == Tracker(Dict([x.workerId], map[x.workerId := x]), map[x.policyVersion := x.checkpointDigest])
  {
    assert [x][..0] == [];
    assert [] + [x.workerId] == [x.workerId];
  }

  lemma TwoAgree(x: ReloadAck, y: ReloadAck)
    requires x.workerId != y.workerId && x.policyVersion == y.policyVersion && x.checkpointDigest == y.checkpointDigest
    ensures RunAcks(Tracker(EmptyDict(), map[]), [x, y])
         == Tracker(Dict([x.workerId, y.workerId], map[x.workerId := x, y.workerId := y]),
                    map[x.policyVersion := x.checkpointDigest])
  {
    hide RunAcks;
    FirstAck(x);
    OneMoreAck(Tracker(EmptyDict(), map[]), [x], y);
    var one := Tracker(Dict([x.workerId], map[x.workerId := x]), map[x.policyVersion := x.checkpointDigest]);
    assert [x] + [y] == [x, y] && [x.workerId] + [y.workerId] == [x.workerId, y.workerId];
    assert one.digestByVersion[y.policyVersion := y.checkpointDigest] == one.digestByVersion;
    assert one.acks.at[y.workerId := y] == map[x.workerId := x, y.workerId := y];
  }

  lemma OneMoreAck(t: Tracker, acks: seq<ReloadAck>, ack: ReloadAck)
    ensures RunAcks(t, acks + [ack]) == match Record(RunAcks(t, acks), ack) {
      case Ok(after) => after
      case Raised(_) => RunAcks(t, acks)
    }
  {
  }
}
