/** Real-number facts about importance weights: sums, effective sample size and its bounds. */
module Weights {

  function Square(x: real): real {
    x * x
  }

  /** A product that the solver does not take apart where the definition is hidden. */
  function Times(x: real, y: real): real {
    x * y
  }

  function Sum(s: seq<real>): real {
    if s == [] then 0.0 else s[0] + Sum(s[1..])
  }

  function SumSq(s: seq<real>): real {
    if s == [] then 0.0 else Square(s[0]) + SumSq(s[1..])
  }

  function Min(x: real, y: real): real {
    if x <= y then x else y
  }

  function Max(x: real, y: real): real {
    if x <= y then y else x
  }

  function Abs(x: real): real {
    if x < 0.0 then -x else x
  }

  function Count(s: seq<bool>): nat {
    if s == [] then 0 else (if s[0] then 1 else 0) + Count(s[1..])
  }

  function MaxAbs(s: seq<real>): (m: real)
    requires s != []
    ensures m >= 0.0
    ensures forall i :: 0 <= i < |s| ==> Abs(s[i]) <= m
    ensures exists i :: 0 <= i < |s| && Abs(s[i]) == m
  {
    if |s| == 1 then Abs(s[0])
    else
      var rest := MaxAbs(s[1..]);
      assert s == [s[0]] + s[1..];
      assert exists i :: 0 <= i < |s| && Abs(s[i]) == Max(Abs(s[0]), rest) by {
        if rest <= Abs(s[0]) {
          assert Abs(s[0]) == Max(Abs(s[0]), rest);
        } else {
          var i :| 0 <= i < |s[1..]| && Abs(s[1..][i]) == rest;
          assert Abs(s[i + 1]) == rest;
        }
      }
      Max(Abs(s[0]), rest)
  }

  lemma OneMore(n: real, v: real)
    ensures Times(n + 1.0, v) == Times(n, v) + v
  {
  }

  predicate AllPositive(w: seq<real>) {
    forall i :: 0 <= i < |w| ==> w[i] > 0.0
  }

  predicate AllEqual(w: seq<real>) {
    forall i, j :: 0 <= i < |w| && 0 <= j < |w| ==> w[i] == w[j]
  }

  // ----- arithmetic that the lemmas below use as single steps

  lemma SquareSign(x: real)
    ensures Square(x) >= 0.0 && (Square(x) == 0.0 <==> x == 0.0)
  {
    hide Square;
    if x > 0.0 {
      PositiveSquare(x);
    } else if x < 0.0 {
      PositiveSquare(-x);
      OppositeSquare(x);
    } else {
      ZeroSquare();
    }
  }

  lemma PositiveSquare(x: real)
    requires x > 0.0
    ensures Square(x) > 0.0
  {
    hide Square, Times;
    PositiveTimes(x, x);
    SquareIsTimes(x);
  }

  lemma PositiveTimes(x: real, y: real)
    requires x > 0.0 && y > 0.0
    ensures Times(x, y) > 0.0
  {
  }

  lemma SquareIsTimes(x: real)
    ensures Square(x) == Times(x, x)
  {
  }

  lemma OppositeSquare(x: real)
    ensures Square(-x) == Square(x)
  {
  }

  lemma ZeroSquare()
    ensures Square(0.0) == 0.0
  {
  }

  lemma PositiveProduct(x: real, y: real)
    requires x > 0.0 && y > 0.0
    ensures x * y > 0.0
  {
  }

  lemma ProductSign(x: real, y: real)
    requires x >= 0.0 && y >= 0.0
    ensures x * y >= 0.0
  {
  }

  lemma Scaled(x: real, y: real, k: real)
    requires k > 0.0
    ensures x <= y <==> x * k <= y * k
  {
  }

  lemma QuotientBounds(a: real, b: real, c: real)
    requires b > 0.0
    ensures c * b <= a <==> c <= a / b
    ensures a <= c * b <==> a / b <= c
  {
  }

  lemma {:induction false} PositiveSums(w: seq<real>)
    requires AllPositive(w)
    ensures Sum(w) >= 0.0 && SumSq(w) >= 0.0
    ensures w != [] ==> Sum(w) > 0.0 && SumSq(w) > 0.0
  {
    hide Square;
    if w == [] {
    } else {
      assert w[0] > 0.0;
      SquareSign(w[0]);
      PositiveSums(w[1..]);
    }
  }

  // ----- Lagrange's identity: n * sum of squares - (sum)^2 is the sum of squared differences

  function DistanceTo(x: real, s: seq<real>): real {
    if s == [] then 0.0 else Square(x - s[0]) + DistanceTo(x, s[1..])
  }

  function Spread(s: seq<real>): real {
    if s == [] then 0.0 else DistanceTo(s[0], s[1..]) + Spread(s[1..])
  }

  function Expanded(n: real, x: real, total: real, squares: real): real {
    n * Square(x) - 2.0 * x * total + squares
  }

  lemma {:induction false} DistanceExpanded(x: real, s: seq<real>)
    ensures DistanceTo(x, s) == Expanded(|s| as real, x, Sum(s), SumSq(s))
  {
    if s == [] {
      assert Expanded(0.0, x, 0.0, 0.0) == 0.0;
    } else {
      DistanceExpanded(x, s[1..]);
      DistanceExpandedStep(x, s);
    }
  }

  lemma DistanceExpandedStep(x: real, s: seq<real>)
    requires s != [] && DistanceTo(x, s[1..]) == Expanded(|s[1..]| as real, x, Sum(s[1..]), SumSq(s[1..]))
    ensures DistanceTo(x, s) == Expanded(|s| as real, x, Sum(s), SumSq(s))
  {
  }

  /** n * sum of squares - (sum)^2 */
  function Unevenness(n: real, total: real, squares: real): real {
    n * squares - Square(total)
  }

  lemma UnevennessStep(n: real, y: real, total: real, squares: real)
    ensures Unevenness(n + 1.0, y + total, Square(y) + squares)
      == Expanded(n, y, total, squares) + Unevenness(n, total, squares)
  {
  }

  lemma {:induction false} Lagrange(s: seq<real>)
    ensures Unevenness(|s| as real, Sum(s), SumSq(s)) == Spread(s)
  {
    if s == [] {
      assert Unevenness(0.0, 0.0, 0.0) == 0.0;
    } else {
      Lagrange(s[1..]);
      LagrangeStep(s);
    }
  }

  lemma LagrangeStep(s: seq<real>)
    requires s != [] && Unevenness(|s[1..]| as real, Sum(s[1..]), SumSq(s[1..])) == Spread(s[1..])
    ensures Unevenness(|s| as real, Sum(s), SumSq(s)) == Spread(s)
  {
    hide Unevenness, Expanded, Square;
    DistanceExpanded(s[0], s[1..]);
    UnevennessStep(|s[1..]| as real, s[0], Sum(s[1..]), SumSq(s[1..]));
    assert |s| as real == |s[1..]| as real + 1.0;
  }

  lemma {:induction false} DistanceSign(x: real, s: seq<real>)
    ensures DistanceTo(x, s) >= 0.0
    ensures DistanceTo(x, s) == 0.0 <==> forall i :: 0 <= i < |s| ==> s[i] == x
  {
    hide Square;
    if s == [] {
    } else {
      DistanceSign(x, s[1..]);
      SquareSign(x - s[0]);
      assert forall i :: 0 < i < |s| ==> s[i] == s[1..][i - 1];
      assert (forall i :: 0 <= i < |s[1..]| ==> s[1..][i] == x) && s[0] == x ==> forall i :: 0 <= i < |s| ==> s[i] == x;
      if forall i :: 0 <= i < |s| ==> s[i] == x {
        assert forall i :: 0 <= i < |s[1..]| ==> s[1..][i] == s[i + 1];
      }
    }
  }

  lemma {:induction false} SpreadSign(s: seq<real>)
    ensures Spread(s) >= 0.0
    ensures Spread(s) == 0.0 <==> AllEqual(s)
  {
    if s == [] {
    } else {
      SpreadSign(s[1..]);
      DistanceSign(s[0], s[1..]);
      hide DistanceTo;
      assert forall i :: 0 <= i < |s[1..]| ==> s[1..][i] == s[i + 1];
      if AllEqual(s) {
        assert AllEqual(s[1..]);
      } else if Spread(s) == 0.0 {
        forall i | 0 <= i < |s| ensures s[i] == s[0] {
          if i > 0 { assert s[1..][i - 1] == s[0]; }
        }
      }
    }
  }

  lemma SquareOfSum(y: real, total: real)
    requires y >= 0.0 && total >= 0.0
    ensures Square(y + total) >= Square(y) + Square(total)
  {
  }

  lemma {:induction false} SquareOfSumDominates(w: seq<real>)
    requires AllPositive(w)
    ensures Square(Sum(w)) >= SumSq(w)
  {
    hide Square;
    if w == [] {
      SquareSign(0.0);
    } else {
      SquareOfSumDominates(w[1..]);
      PositiveSums(w[1..]);
      assert w[0] > 0.0;
      SquareOfSum(w[0], Sum(w[1..]));
    }
  }

  // ----- effective sample size

  function EssOf(n: real, total: real, squares: real): real
    requires n > 0.0 && squares > 0.0
  {
    PositiveProduct(n, squares);
    Square(total) / (n * squares)
  }

  /** (sum of weights)^2 / (n * sum of squared weights) */
  function Ess(w: seq<real>): real
    requires w != [] && SumSq(w) > 0.0
  {
    EssOf(|w| as real, Sum(w), SumSq(w))
  }

  lemma EssOfRange(n: real, total: real, squares: real)
    requires n > 0.0 && squares > 0.0
    requires Unevenness(n, total, squares) >= 0.0 && Square(total) >= squares
    ensures 1.0 / n <= EssOf(n, total, squares) <= 1.0
    ensures EssOf(n, total, squares) == 1.0 <==> Unevenness(n, total, squares) == 0.0
  {
    var a, b := Square(total), n * squares;
    PositiveProduct(n, squares);
    assert Unevenness(n, total, squares) == b - a;
    var r := 1.0 / n;
    assert r * n == 1.0;
    OneOverTimes(r, n, squares);
    hide *;
    QuotientBounds(a, b, 1.0);
    assert 1.0 * b == b;
    QuotientBounds(a, b, r);
  }

  lemma OneOverTimes(r: real, n: real, q: real)
    requires r * n == 1.0
    ensures r * (n * q) == q
  {
  }

  /** The effective sample size lies between 1/n and 1, and is 1 exactly for equal weights. */
  lemma {:induction false} EssRange(w: seq<real>)
    requires w != [] && AllPositive(w)
    ensures SumSq(w) > 0.0
    ensures 1.0 / |w| as real <= Ess(w) <= 1.0
    ensures Ess(w) == 1.0 <==> AllEqual(w)
  {
    hide Sum, SumSq, EssOf, Unevenness, Square, Spread;
    PositiveSums(w);
    Lagrange(w);
    SpreadSign(w);
    SquareOfSumDominates(w);
    EssOfRange(|w| as real, Sum(w), SumSq(w));
  }

  lemma EssOfTimesSecondMoment(n: real, total: real, squares: real)
    requires n > 0.0 && squares > 0.0
    ensures Times(EssOf(n, total, squares), squares / n) == Square(total / n)
  {
  }

  /** ESS times the second moment is the square of the mean weight. */
  lemma {:induction false} EssTimesSecondMoment(w: seq<real>)
    requires w != [] && AllPositive(w)
    ensures SumSq(w) > 0.0
    ensures Times(Ess(w), SumSq(w) / |w| as real) == Square(Sum(w) / |w| as real)
  {
    hide Sum, SumSq, EssOf, Square, Times;
    PositiveSums(w);
    EssOfTimesSecondMoment(|w| as real, Sum(w), SumSq(w));
  }

  // ----- Kantorovich: weights inside [a, b] with a * b = 1 cannot be too uneven

  /** Above the parabola and under the chord through a and b. */
  predicate UnderChord(n: real, total: real, squares: real, c: real) {
    squares <= c * total - n
  }

  lemma ChordStep(y: real, n: real, total: real, squares: real, a: real, b: real)
    requires a * b == 1.0 && (y - a) * (y - b) <= 0.0 && UnderChord(n, total, squares, a + b)
    ensures UnderChord(n + 1.0, y + total, Square(y) + squares, a + b)
  {
  }

  lemma {:induction false} SquaresUnderChord(w: seq<real>, a: real, b: real)
    requires a * b == 1.0
    requires forall i :: 0 <= i < |w| ==> (w[i] - a) * (w[i] - b) <= 0.0
    ensures UnderChord(|w| as real, Sum(w), SumSq(w), a + b)
  {
    if w == [] {
      assert UnderChord(0.0, 0.0, 0.0, a + b);
    } else {
      forall i | 0 <= i < |w[1..]| ensures (w[1..][i] - a) * (w[1..][i] - b) <= 0.0 {
        assert w[1..][i] == w[i + 1];
      }
      hide UnderChord, Square;
      SquaresUnderChord(w[1..], a, b);
      ChordStep(w[0], |w[1..]| as real, Sum(w[1..]), SumSq(w[1..]), a, b);
      assert |w| as real == |w[1..]| as real + 1.0;
    }
  }

  /** 4 n q <= 4 n (c s - n) <= (c s)^2 */
  lemma FourProducts(n: real, s: real, q: real, c: real)
    requires n > 0.0 && UnderChord(n, s, q, c)
    ensures 4.0 * (n * q) <= Square(c) * Square(s)
  {
    var x := c * s;
    ProductSign(n, x - n - q);
    assert n * (x - n - q) == n * (x - n) - n * q;
    SquareSign(x - 2.0 * n);
    assert Square(x - 2.0 * n) == x * x - 4.0 * (n * (x - n));
    SquareOfProduct(c, s);
  }

  lemma SquareOfProduct(c: real, s: real)
    ensures (c * s) * (c * s) == Square(c) * Square(s)
  {
  }

  lemma RatioBound(s2: real, nq: real, c2: real)
    requires nq > 0.0 && c2 > 0.0 && 4.0 * nq <= c2 * s2
    ensures s2 / nq >= 4.0 / c2
  {
  }

  lemma {:induction false} Kantorovich(w: seq<real>, a: real, b: real)
    requires w != [] && AllPositive(w)
    requires a > 0.0 && b > 0.0 && a * b == 1.0
    requires forall i :: 0 <= i < |w| ==> (w[i] - a) * (w[i] - b) <= 0.0
    ensures SumSq(w) > 0.0 && Square(a + b) > 0.0
    ensures Ess(w) >= 4.0 / Square(a + b)
  {
    hide Sum, SumSq, UnderChord, Square;
    PositiveSums(w);
    SquaresUnderChord(w, a, b);
    SquareSign(a + b);
    EssOfBound(|w| as real, Sum(w), SumSq(w), a + b);
  }

  lemma EssOfBound(n: real, s: real, q: real, c: real)
    requires n > 0.0 && q > 0.0 && Square(c) > 0.0 && UnderChord(n, s, q, c)
    ensures EssOf(n, s, q) >= 4.0 / Square(c)
  {
    hide Square, UnderChord;
    FourProducts(n, s, q, c);
    PositiveProduct(n, q);
    RatioBound(Square(s), n * q, Square(c));
  }

  // ----- variance

  function Deviations(w: seq<real>, mean: real): seq<real> {
    seq(|w|, i requires 0 <= i < |w| => w[i] - mean)
  }

  lemma {:induction false} DeviationSum(w: seq<real>, mean: real)
    ensures SumSq(Deviations(w, mean)) == DistanceTo(mean, w)
  {
    if w == [] {
    } else {
      DeviationSum(w[1..], mean);
      assert Deviations(w, mean)[1..] == Deviations(w[1..], mean);
      OppositeSquare(mean - w[0]);
      assert w[0] - mean == -(mean - w[0]);
    }
  }

  /** The mean squared deviation from the mean is the second moment less the squared mean. */
  lemma {:induction false} VarianceIdentity(w: seq<real>)
    requires w != []
    ensures var n := |w| as real; var mean := Sum(w) / n;
      SumSq(Deviations(w, mean)) / n == SumSq(w) / n - Square(mean)
  {
    hide Sum, SumSq, DistanceTo, Expanded, Square;
    var n := |w| as real;
    DeviationSum(w, Sum(w) / n);
    DistanceExpanded(Sum(w) / n, w);
    VarianceOf(n, Sum(w), SumSq(w));
  }

  lemma VarianceOf(n: real, total: real, squares: real)
    requires n > 0.0
    ensures Expanded(n, total / n, total, squares) / n == squares / n - Square(total / n)
  {
  }

  // ----- sums over concatenations

  lemma {:induction false} SumConcat(a: seq<real>, b: seq<real>)
    ensures Sum(a + b) == Sum(a) + Sum(b) && SumSq(a + b) == SumSq(a) + SumSq(b)
  {
    hide Square;
    if a == [] {
      assert a + b == b;
    } else {
      assert (a + b)[1..] == a[1..] + b;
      SumConcat(a[1..], b);
    }
  }
}
