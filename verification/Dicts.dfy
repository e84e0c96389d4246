/** Insertion-ordered dictionaries and a few facts about duplicate-free sequences. */
module Dicts {

  ghost predicate Distinct<T>(s: seq<T>) {
    forall i, j :: 0 <= i < j < |s| ==> s[i] != s[j]
  }

  /** Adds `x` behind `s` unless it is there already: how a dict keeps the place of a key it knows. */
  function Enroll<T(==)>(s: seq<T>, x: T): seq<T> {
    if x in s then s else s + [x]
  }

  datatype Dict<K(==,!new), V> = Dict(keys: seq<K>, at: map<K, V>) {
    ghost predicate Valid() {
      && Distinct(keys)
      && forall k :: k in keys <==> k in at
    }

    /** Assignment `d[k] = v`: a known key keeps its position, a new key goes last. */
    function Put(k: K, v: V): (d: Dict<K, V>)
      ensures Valid() ==> d.Valid()
    {
      Dict(if k in at then keys else keys + [k], at[k := v])
    }

    /** Changes the value of a key that is present. */
    function Replace(k: K, v: V): (d: Dict<K, V>)
      requires k in at
      ensures d == Put(k, v)
    {
      Dict(keys, at[k := v])
    }
  }

  function EmptyDict<K(==,!new), V>(): Dict<K, V> {
    Dict([], map[])
  }

  lemma {:induction false} DistinctPrefix<T>(s: seq<T>, n: nat)
    requires Distinct(s) && n < |s|
    ensures Distinct(s[..n]) && s[n] !in s[..n]
  {
  }

  /** Two duplicate-free listings of one set have the same length. */
  lemma {:induction false} DistinctCardinality<T>(s: seq<T>, members: set<T>)
    requires Distinct(s)
    requires forall x :: x in members <==> x in s
    ensures |members| == |s|
  {
    if s == [] {
      assert members == {};
    } else {
      var n := |s| - 1;
      DistinctPrefix(s, n);
      var rest := members - {s[n]};
      assert s == s[..n] + [s[n]];
      forall x ensures x in rest <==> x in s[..n] {
        assert x in s <==> x in s[..n] || x == s[n];
      }
      DistinctCardinality(s[..n], rest);
    }
  }
}
