/** The router rates, told as numbers of tokens whose experts differ. */
module RouterLaws {
  import opened Wrappers
  import opened RouterMismatch

  /** The tokens whose first choice at layer `l` differs. */
  ghost function Flipped(a: RouterTrace, b: RouterTrace, n: nat, l: nat): set<nat>
    requires SameShape(a, b) && n <= |a.expertIds| && l < a.numLayers
  {
    set t: nat | t < n && a.expertIds[t][l][0] != b.expertIds[t][l][0]
  }

  /** The pairs of token and layer with different first choices. */
  ghost function FlippedPairs(a: RouterTrace, b: RouterTrace, layers: nat): set<(nat, nat)>
    requires SameShape(a, b) && layers <= a.numLayers
  {
    set t: nat, l: nat | t < |a.expertIds| && l < layers && a.expertIds[t][l][0] != b.expertIds[t][l][0] :: (t, l)
  }

  /** Some expert of one trace is not among those of the other at this token and layer. */
  ghost predicate Odd(a: RouterTrace, b: RouterTrace, t: nat, l: nat)
    requires SameShape(a, b) && t < |a.expertIds| && l < a.numLayers
  {
    || (exists e :: e in a.expertIds[t][l] && e !in b.expertIds[t][l])
    || (exists e :: e in b.expertIds[t][l] && e !in a.expertIds[t][l])
  }

  ghost predicate OddSomewhere(a: RouterTrace, b: RouterTrace, t: nat)
    requires SameShape(a, b) && t < |a.expertIds|
  {
    exists l: nat :: l < a.numLayers && Odd(a, b, t, l)
  }

  ghost function OddTokens(a: RouterTrace, b: RouterTrace, n: nat): set<nat>
    requires SameShape(a, b) && n <= |a.expertIds|
  {
    set t: nat | t < n && OddSomewhere(a, b, t)
  }

  lemma {:induction false} FlipsCount(a: RouterTrace, b: RouterTrace, n: nat, l: nat)
    requires SameShape(a, b) && n <= |a.expertIds| && l < a.numLayers
    ensures Flips(a, b, n, l) == |Flipped(a, b, n, l)|
  {
    if n == 0 {
      assert Flipped(a, b, 0, l) == {};
    } else {
      FlipsCount(a, b, n - 1, l);
      var before := Flipped(a, b, n - 1, l);
      assert Flipped(a, b, n, l)
          == if a.expertIds[n - 1][l][0] != b.expertIds[n - 1][l][0] then before + {n - 1} else before;
    }
  }

  ghost function Tagged(s: set<nat>, l: nat): set<(nat, nat)> {
    set t | t in s :: (t, l)
  }

  lemma {:induction false} TaggedCount(s: set<nat>, l: nat)
    ensures |Tagged(s, l)| == |s|
  {
    if s == {} {
      assert Tagged(s, l) == {};
    } else {
      var x :| x in s;
      TaggedCount(s - {x}, l);
      assert Tagged(s, l) == Tagged(s - {x}, l) + {(x, l)};
    }
  }

  lemma {:induction false} AllFlipsCount(a: RouterTrace, b: RouterTrace, layers: nat)
    requires SameShape(a, b) && layers <= a.numLayers
    ensures AllFlips(a, b, |a.expertIds|, layers) == |FlippedPairs(a, b, layers)|
  {
    if layers == 0 {
      assert FlippedPairs(a, b, 0) == {};
    } else {
      hide RouterTrace.Valid, Flips;
      var l := layers - 1;
      AllFlipsCount(a, b, l);
      FlipsCount(a, b, |a.expertIds|, l);
      NextLayer(a, b, l);
    }
  }

  lemma NextLayer(a: RouterTrace, b: RouterTrace, l: nat)
    requires SameShape(a, b) && l < a.numLayers
    ensures |FlippedPairs(a, b, l + 1)| == |FlippedPairs(a, b, l)| + |Flipped(a, b, |a.expertIds|, l)|
  {
    var last := Tagged(Flipped(a, b, |a.expertIds|, l), l);
    TaggedCount(Flipped(a, b, |a.expertIds|, l), l);
    assert FlippedPairs(a, b, l + 1) == FlippedPairs(a, b, l) + last;
    assert FlippedPairs(a, b, l) !! last;
  }

  lemma OddIff(a: RouterTrace, b: RouterTrace, t: nat, l: nat)
    requires SameShape(a, b) && t < |a.expertIds| && l < a.numLayers
    ensures SetsDiffer(a, b, t, l) <==> Odd(a, b, t, l)
  {
    var x, y := a.expertIds[t][l], b.expertIds[t][l];
    assert forall e :: (e in Experts(x) <==> e in x) && (e in Experts(y) <==> e in y);
  }

  lemma OddSomewhereIff(a: RouterTrace, b: RouterTrace, t: nat)
    requires SameShape(a, b) && t < |a.expertIds|
    ensures TokenDisagrees(a, b, t, a.numLayers) <==> OddSomewhere(a, b, t)
  {
    hide RouterTrace.Valid, SetsDiffer, Odd;
    forall l: nat | l < a.numLayers ensures SetsDiffer(a, b, t, l) <==> Odd(a, b, t, l) {
      OddIff(a, b, t, l);
    }
  }

  lemma {:induction false} DisagreementsCount(a: RouterTrace, b: RouterTrace, n: nat)
    requires SameShape(a, b) && n <= |a.expertIds|
    ensures Disagreements(a, b, n) == |OddTokens(a, b, n)|
  {
    hide RouterTrace.Valid, TokenDisagrees, OddSomewhere;
    if n == 0 {
      assert OddTokens(a, b, 0) == {};
    } else {
      var t: nat := n - 1;
      DisagreementsCount(a, b, t);
      OddSomewhereIff(a, b, t);
      var before := OddTokens(a, b, t);
      assert OddTokens(a, b, n) == if OddSomewhere(a, b, t) then before + {t} else before;
    }
  }

  lemma Rejoined(count: nat, total: nat)
    requires total > 0
    ensures Rate(count, total) * total as real == count as real
  {
  }

  /**
   Two traces are compared exactly when they agree in layers, experts, experts per layer and tokens and
   have a token. Each rate times its total is then the number of tokens, or of pairs of token and
   layer, at which the routing differs.
   */
  lemma {:induction false} RatesLaw(a: RouterTrace, b: RouterTrace)
    requires a.Valid() && b.Valid()
    ensures Comparable(a, b) <==>
      && a.numLayers == b.numLayers && a.numExperts == b.numExperts && a.topK == b.topK
      && |a.expertIds| == |b.expertIds| != 0
    ensures Comparable(a, b) ==>
      var n := |a.expertIds|;
      && FlipRate(a, b) * (n * a.numLayers) as real == |FlippedPairs(a, b, a.numLayers)| as real
      && TokenRate(a, b) * n as real == |OddTokens(a, b, n)| as real
      && forall l: nat :: l < a.numLayers ==> LayerRate(a, b, l) * n as real == |Flipped(a, b, n, l)| as real
  {
    hide RouterTrace.Valid, Rate, Flips, AllFlips, Disagreements, Flipped, FlippedPairs, OddTokens;
    if Comparable(a, b) {
      var n, k := |a.expertIds|, a.numLayers;
      LayersExist(a);
      PositiveCount(n, k);
      AllFlipsCount(a, b, k);
      Rejoined(AllFlips(a, b, n, k), n * k);
      DisagreementsCount(a, b, n);
      Rejoined(Disagreements(a, b, n), n);
      forall l: nat | l < k ensures LayerRate(a, b, l) * n as real == |Flipped(a, b, n, l)| as real {
        FlipsCount(a, b, n, l);
        Rejoined(Flips(a, b, n, l), n);
      }
    }
  }
}
