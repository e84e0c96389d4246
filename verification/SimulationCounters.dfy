/** The counters of a finished simulation. */
module SimulationCounters {
  import opened Wrappers
  import opened Contracts
  import opened WorkerBroker
  import opened BrokerInvariants
  import opened Simulation

  /** `counts[key] += 1` on a counter: a missing key counts as zero. */
  function Bump<K>(counts: map<K, nat>, key: K): map<K, nat> {
    counts[key := Lookup(counts, key) + 1]
  }

  function Lookup<K>(counts: map<K, nat>, key: K): nat {
    if key in counts then counts[key] else 0
  }

  /** The counter holds each key as often as the listing does, and no key that is not listed. */
  ghost predicate Counts<K(!new)>(counts: map<K, nat>, keys: seq<K>) {
    forall k :: Lookup(counts, k) == multiset(keys)[k] && (k in counts <==> k in keys)
  }

  lemma Bumped<K(!new)>(counts: map<K, nat>, keys: seq<K>, key: K)
    requires Counts(counts, keys)
    ensures Counts(Bump(counts, key), keys + [key])
  {
    assert multiset(keys + [key]) == multiset(keys) + multiset{key};
  }

  // ----- what is counted, one entry per increment

  function WorkerActions(out: seq<(nat, GroupDecision)>, ids: seq<string>): seq<(string, Action)>
    requires forall k :: 0 <= k < |out| ==> out[k].0 < |ids|
  {
    if out == [] then []
    else
      var last := out[|out| - 1];
      WorkerActions(out[..|out| - 1], ids) + [(ids[last.0], last.1.recommendedAction)]
  }

  function ProfileActions(out: seq<(nat, GroupDecision)>, profiles: seq<Profile>): seq<(Profile, Action)>
    requires forall k :: 0 <= k < |out| ==> out[k].0 < |profiles|
  {
    if out == [] then []
    else
      var last := out[|out| - 1];
      ProfileActions(out[..|out| - 1], profiles) + [(profiles[last.0], last.1.recommendedAction)]
  }

  function Rejections(out: seq<(nat, GroupDecision)>): seq<RejectionReason> {
    if out == [] then []
    else
      var reason := out[|out| - 1].1.rejectionReason;
      Rejections(out[..|out| - 1]) + if reason.Some? then [reason.value] else []
  }

  function Reasons(out: seq<(nat, GroupDecision)>): seq<DecisionReason> {
    if out == [] then [] else Reasons(out[..|out| - 1]) + out[|out| - 1].1.decisionReasons
  }

  function EventsOf(audit: seq<AuditEntry>): seq<Event> {
    if audit == [] then [] else EventsOf(audit[..|audit| - 1]) + [audit[|audit| - 1].event]
  }

  /** The loop over the results: one pass, four counters, the reasons of a decision in an inner loop. */
  method CountResults(out: seq<(nat, GroupDecision)>, ids: seq<string>, profiles: seq<Profile>)
    returns (byWorker: map<(string, Action), nat>, byProfile: map<(Profile, Action), nat>,
             rejections: map<RejectionReason, nat>, reasons: map<DecisionReason, nat>)
    requires |ids| == |profiles| && forall k :: 0 <= k < |out| ==> out[k].0 < |ids|
    ensures Counts(byWorker, WorkerActions(out, ids)) && Counts(byProfile, ProfileActions(out, profiles))
    ensures Counts(rejections, Rejections(out)) && Counts(reasons, Reasons(out))
  {
    hide Counts, Bump, Lookup;
    byWorker, byProfile, rejections, reasons := map[], map[], map[], map[];
    NothingCounted(byWorker);
    NothingCounted(byProfile);
    NothingCounted(rejections);
    NothingCounted(reasons);
    for k := 0 to |out|
      invariant Counts(byWorker, WorkerActions(out[..k], ids)) && Counts(byProfile, ProfileActions(out[..k], profiles))
      invariant Counts(rejections, Rejections(out[..k])) && Counts(reasons, Reasons(out[..k]))
    {
      var (thread, decision) := out[k];
      assert out[..k + 1][..k] == out[..k];
      Bumped(byWorker, WorkerActions(out[..k], ids), (ids[thread], decision.recommendedAction));
      byWorker := Bump(byWorker, (ids[thread], decision.recommendedAction));
      Bumped(byProfile, ProfileActions(out[..k], profiles), (profiles[thread], decision.recommendedAction));
      byProfile := Bump(byProfile, (profiles[thread], decision.recommendedAction));
      if decision.rejectionReason.Some? {
        Bumped(rejections, Rejections(out[..k]), decision.rejectionReason.value);
        rejections := Bump(rejections, decision.rejectionReason.value);
      } else {
        assert Rejections(out[..k + 1]) == Rejections(out[..k]);
      }
      reasons := CountReasons(reasons, decision.decisionReasons, Reasons(out[..k]));
    }
    assert out[..|out|] == out;
  }

  method CountReasons(counts: map<DecisionReason, nat>, more: seq<DecisionReason>, ghost counted: seq<DecisionReason>)
    returns (r: map<DecisionReason, nat>)
    requires Counts(counts, counted)
    ensures Counts(r, counted + more)
  {
    hide Counts, Bump, Lookup;
    r := counts;
    assert counted + more[..0] == counted;
    for j := 0 to |more|
      invariant Counts(r, counted + more[..j])
    {
      Bumped(r, counted + more[..j], more[j]);
      assert counted + more[..j + 1] == counted + more[..j] + [more[j]];
      r := Bump(r, more[j]);
    }
    assert more[..|more|] == more;
  }

  method CountAudit(audit: seq<AuditEntry>) returns (counts: map<Event, nat>)
    ensures Counts(counts, EventsOf(audit))
  {
    hide Counts, Bump, Lookup;
    counts := map[];
    NothingCounted(counts);
    for k := 0 to |audit|
      invariant Counts(counts, EventsOf(audit[..k]))
    {
      assert audit[..k + 1][..k] == audit[..k];
      Bumped(counts, EventsOf(audit[..k]), audit[k].event);
      counts := Bump(counts, audit[k].event);
    }
    assert audit[..|audit|] == audit;
  }

  lemma NothingCounted<K(!new)>(counts: map<K, nat>)
    requires counts == map[]
    ensures Counts(counts, [])
  {
  }

  /** The counter over events agrees with the broker's own accounts. */
  lemma {:induction false} EventsCounted(audit: seq<AuditEntry>, e: Event)
    ensures multiset(EventsOf(audit))[e] == CountEvents(audit, e)
  {
    if audit == [] {
    } else {
      EventsCounted(audit[..|audit| - 1], e);
    }
  }

  /** A key of the counter by profile comes from some result. */
  lemma {:induction false} ProfileActionFromResult(out: seq<(nat, GroupDecision)>, profiles: seq<Profile>, p: Profile,
                                                   a: Action) returns (k: nat)
    requires forall k :: 0 <= k < |out| ==> out[k].0 < |profiles|
    requires (p, a) in ProfileActions(out, profiles)
    ensures k < |out| && profiles[out[k].0] == p && out[k].1.recommendedAction == a
  {
    var n := |out| - 1;
    if (p, a) == (profiles[out[n].0], out[n].1.recommendedAction) {
      k := n;
    } else {
      k := ProfileActionFromResult(out[..n], profiles, p, a);
    }
  }
}
