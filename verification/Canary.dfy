// Canary statistics over exact reals: the Wilson interval of a failure rate, the Newcombe interval of a
// difference of two rates, and nearest-rank percentiles. Square roots are given by what they satisfy.
module Canary {
  datatype Interval = Interval(low: real, high: real)

  const Z: real := 1.959963984540054

  function Max(a: real, b: real): real { if a >= b then a else b }
  function Min(a: real, b: real): real { if a <= b then a else b }

  ghost predicate IsRoot(r: real, x: real) { r >= 0.0 && r * r == x }

  /** The interval contains the rate and stays inside [0, 1]. */
  predicate Holds(i: Interval, p: real) {
    0.0 <= i.low <= p <= i.high <= 1.0
  }

  // ----- rate -----

  /** The observed rate. */
  function Rate(numerator: nat, n: nat): real
    requires n > 0
  {
    numerator as real / n as real
  }

  /** The share z^2 / n by which the interval shrinks towards one half. */
  function Shrink(n: nat): real
    requires n > 0
  {
    Z * Z / (n as real)
  }

  /** What is under the root in the margin: (p (1 - p) + z^2 / 4n) / n. */
  function Spread(p: real, n: nat): real
    requires n > 0
  {
    (p * (1.0 - p) + Shrink(n) / 4.0) / (n as real)
  }

  function Center(p: real, n: nat): real
    requires n > 0
  {
    var a := Shrink(n);
    ShrinkPositive(n);
    (p + a / 2.0) / (1.0 + a)
  }

  function Margin(n: nat, root: real): real
    requires n > 0
  {
    ShrinkPositive(n);
    Z * root / (1.0 + Shrink(n))
  }

  /** `rate`, for a positive denominator and the root it takes. */
  function Wilson(numerator: nat, n: nat, root: real): Interval
    requires n > 0
  {
    var p := Rate(numerator, n);
    Interval(Max(0.0, Center(p, n) - Margin(n, root)), Min(1.0, Center(p, n) + Margin(n, root)))
  }

  lemma ShrinkPositive(n: nat)
    requires n > 0
    ensures Shrink(n) > 0.0
  {
    assert Z * Z > 0.0;
    DivPositive(Z * Z, n as real);
  }

  lemma DivPositive(a: real, b: real)
    requires a > 0.0 && b > 0.0
    ensures a / b > 0.0
  {
    assert a / b * b == a;
    if a / b <= 0.0 { MulNonneg(-(a / b), b); assert false; }
  }

  lemma MulNonneg(a: real, b: real)
    requires a >= 0.0 && b >= 0.0
    ensures a * b >= 0.0
  {
  }

  lemma SquareOrder(x: real, y: real)
    requires y >= 0.0
    ensures x * x <= y * y <==> -y <= x <= y
  {
    if x > y {
      var u, w := x - y, x + y;
      PosPos(u, w);
      assert u * w == x * x - y * y;
    }
    if x < -y {
      var u, w := -x - y, y - x;
      PosPos(u, w);
      assert u * w == x * x - y * y;
    }
    if -y <= x <= y {
      var u, w := y - x, y + x;
      MulNonneg(u, w);
      assert u * w == y * y - x * x;
    }
  }

  lemma PosPos(a: real, b: real)
    requires a > 0.0 && b > 0.0
    ensures a * b > 0.0
  {
  }

  /** The margin's square, cleared of its denominators. */
  lemma MarginSquared(p: real, n: nat, root: real)
    requires n > 0 && IsRoot(root, Spread(p, n))
    ensures var a := Shrink(n);
      Margin(n, root) * (1.0 + a) == Z * root
      && (Z * root) * (Z * root) == a * (p * (1.0 - p) + a / 4.0)
  {
    ShrinkPositive(n);
    var a, m := Shrink(n), n as real;
    var v := p * (1.0 - p) + a / 4.0;
    assert Margin(n, root) * (1.0 + a) == Z * root;
    assert a * m == Z * Z;
    assert Spread(p, n) * m == v;
    calc {
      (Z * root) * (Z * root);
      (Z * Z) * (root * root);
      a * m * Spread(p, n);
      a * (Spread(p, n) * m);
      a * v;
    }
  }

  /** (1 + a)^2 ((x - c)^2 - margin^2) as a polynomial in x. */
  lemma Completed(p: real, n: nat, root: real, x: real)
    requires n > 0 && IsRoot(root, Spread(p, n))
    ensures var a := Shrink(n);
      var y := (x - Center(p, n)) * (1.0 + a);
      var g := Margin(n, root) * (1.0 + a);
      y * y - g * g == (1.0 + a) * ((x - p) * (x - p) - a * (x * (1.0 - x)))
  {
    ShrinkPositive(n);
    var a := Shrink(n);
    MarginSquared(p, n, root);
    assert Center(p, n) * (1.0 + a) == p + a / 2.0;
    var y := x * (1.0 + a) - (p + a / 2.0);
    assert (x - Center(p, n)) * (1.0 + a) == y;
    Polynomial(a, p, x);
  }

  lemma Polynomial(a: real, p: real, x: real)
    ensures var y := x * (1.0 + a) - (p + a / 2.0);
      y * y - a * (p * (1.0 - p) + a / 4.0) == (1.0 + a) * ((x - p) * (x - p) - a * (x * (1.0 - x)))
  {
    var s := 1.0 + a;
    var h := p + a / 2.0;
    calc {
      (x * s - h) * (x * s - h);
      x * x * s * s - 2.0 * x * s * h + h * h;
    }
    assert h * h == p * p + a * p + a * a / 4.0;
    assert a * (p * (1.0 - p) + a / 4.0) == a * p - a * (p * p) + a * a / 4.0;
    assert h * h - a * (p * (1.0 - p) + a / 4.0) == s * (p * p);
    assert (x - p) * (x - p) - a * (x * (1.0 - x)) == x * x * s - 2.0 * x * h + p * p;
    calc {
      s * (x * x * s - 2.0 * x * h + p * p);
      s * (x * x * s) - s * (2.0 * x * h) + s * (p * p);
      x * x * s * s - 2.0 * x * s * h + s * (p * p);
    }
  }

  /** The interval before clipping is the set of rates the score test does not reject: those x whose distance from the
    * observed rate, squared, is at most z^2 x (1 - x) / n. */
  lemma WilsonIsScoreTest(p: real, n: nat, root: real, x: real)
    requires n > 0 && IsRoot(root, Spread(p, n))
    ensures Center(p, n) - Margin(n, root) <= x <= Center(p, n) + Margin(n, root)
      <==> (x - p) * (x - p) <= Shrink(n) * (x * (1.0 - x))
  {
    var a := Shrink(n);
    ShrinkPositive(n);
    Completed(p, n, root, x);
    MarginSquared(p, n, root);
    MulNonneg(Z, root);
    var c, g := Center(p, n), Margin(n, root);
    hide Shrink, Center, Margin, Spread;
    TestScaled(1.0 + a, x - c, g, (x - p) * (x - p) - a * (x * (1.0 - x)));
  }

  lemma TestScaled(s: real, d: real, g: real, t: real)
    requires s > 0.0 && g * s >= 0.0 && (d * s) * (d * s) - (g * s) * (g * s) == s * t
    ensures -g <= d <= g <==> t <= 0.0
  {
    SquareOrder(d * s, g * s);
    Scale(s, t);
    ScaleBetween(s, d, g);
  }

  lemma Scale(s: real, t: real)
    requires s > 0.0
    ensures s * t <= 0.0 <==> t <= 0.0
  {
    if t > 0.0 { PosPos(s, t); } else { MulNonneg(s, -t); assert s * -t == -(s * t); }
  }

  lemma ScaleBetween(s: real, d: real, g: real)
    requires s > 0.0
    ensures -(g * s) <= d * s <= g * s <==> -g <= d <= g
  {
    Scale(s, d - g);
    Scale(s, -g - d);
    assert s * (d - g) == d * s - g * s && s * (-g - d) == -(g * s) - d * s;
  }

  /** The Wilson interval contains the observed rate and stays inside [0, 1]. */
  lemma WilsonContainsRate(numerator: nat, n: nat, root: real)
    requires n > 0 && numerator <= n && IsRoot(root, Spread(Rate(numerator, n), n))
    ensures Holds(Wilson(numerator, n, root), Rate(numerator, n))
  {
    var p := Rate(numerator, n);
    RateBounds(numerator, n);
    ShrinkPositive(n);
    MulNonneg(p, 1.0 - p);
    MulNonneg(Shrink(n), p * (1.0 - p));
    assert (p - p) * (p - p) == 0.0;
    WilsonIsScoreTest(p, n, root, p);
  }

  lemma RateBounds(numerator: nat, n: nat)
    requires n > 0 && numerator <= n
    ensures 0.0 <= Rate(numerator, n) <= 1.0
  {
    var p := Rate(numerator, n);
    assert p * (n as real) == numerator as real;
    if p < 0.0 { PosPos(-p, n as real); assert false; }
    if p > 1.0 { PosPos(p - 1.0, n as real); assert false; }
  }

  /** The observed rate is the share of the hits. */
  lemma RateIs(hits: nat, total: nat)
    requires total > 0
    ensures Rate(hits, total) * (total as real) == hits as real
  {
  }

  /** A test on shares is the test on counts. */
  lemma Cleared(n: real, p: real, h: real, a: real, zz: real, x: real)
    requires n > 0.0 && p * n == h && a * n == zz
    ensures var t := x * (1.0 - x);
      (x - p) * (x - p) <= a * t <==> (n * x - h) * (n * x - h) <= zz * n * t
  {
    var u, v, l, r := (x - p) * (x - p), a * (x * (1.0 - x)), (n * x - h) * (n * x - h), zz * n * (x * (1.0 - x));
    assert l == n * (n * u) by { SquareCleared(n, p, h, x); }
    assert r == n * (n * v) by { ShareCleared(n, a, zz, x * (1.0 - x)); }
    ScaledTwice(n, u, v, l, r);
  }

  lemma SquareCleared(n: real, p: real, h: real, x: real)
    requires p * n == h
    ensures (n * x - h) * (n * x - h) == n * (n * ((x - p) * (x - p)))
  {
    var d := x - p;
    assert n * x - h == n * d;
    assert (n * d) * (n * d) == n * (n * (d * d));
  }

  lemma ShareCleared(n: real, a: real, zz: real, t: real)
    requires a * n == zz
    ensures zz * n * t == n * (n * (a * t))
  {
    assert zz * n * t == (a * n) * n * t;
  }

  lemma ScaledTwice(n: real, u: real, v: real, l: real, r: real)
    requires n > 0.0 && l == n * (n * u) && r == n * (n * v)
    ensures u <= v <==> l <= r
  {
    ScaledOrder(n, u, v);
    ScaledOrder(n, n * u, n * v);
  }

  lemma ScaledOrder(s: real, u: real, v: real)
    requires s > 0.0
    ensures u <= v <==> s * u <= s * v
  {
    Scale(s, u - v);
    assert s * (u - v) == s * u - s * v;
  }

  /** What the score test says of the rate x, in counts. */
  ghost predicate NotRejected(hits: nat, total: nat, x: real) {
    var n, h := total as real, hits as real;
    (n * x - h) * (n * x - h) <= Z * Z * n * (x * (1.0 - x))
  }

  lemma TestCleared(hits: nat, total: nat, x: real)
    requires total > 0
    ensures var p := Rate(hits, total);
      (x - p) * (x - p) <= Shrink(total) * (x * (1.0 - x)) <==> NotRejected(hits, total, x)
  {
    var n, p, h, a := total as real, Rate(hits, total), hits as real, Shrink(total);
    RateIs(hits, total);
    assert a * n == Z * Z;
    hide Rate, Shrink;
    Cleared(n, p, h, a, Z * Z, x);
  }

  /** The interval reported for `hits` of `total` is exactly the set of rates between 0 and 1 that the score
    * test does not reject: total x - hits, squared, is at most z^2 total x (1 - x). */
  lemma WilsonExactly(hits: nat, total: nat, root: real, x: real)
    requires total > 0 && IsRoot(root, Spread(Rate(hits, total), total))
    ensures var i := Wilson(hits, total, root); i.low <= x <= i.high <==> 0.0 <= x <= 1.0 && NotRejected(hits, total, x)
  {
    WilsonIsScoreTest(Rate(hits, total), total, root, x);
    TestCleared(hits, total, x);
    hide Rate, Spread, Shrink, Center, Margin, NotRejected, IsRoot;
  }

  // ----- the difference of two rates -----

  function Square(x: real): real { x * x }

  /** `differenceConfidence95`, with the two roots it takes. */
  function Newcombe(p1: real, i1: Interval, p2: real, i2: Interval, rootLow: real, rootHigh: real): Interval {
    var difference := p2 - p1;
    Interval(Max(-1.0, difference - rootLow), Min(1.0, difference + rootHigh))
  }

  ghost predicate NewcombeRoots(p1: real, i1: Interval, p2: real, i2: Interval, rootLow: real, rootHigh: real) {
    && IsRoot(rootLow, Square(p2 - i2.low) + Square(i1.high - p1))
    && IsRoot(rootHigh, Square(i2.high - p2) + Square(p1 - i1.low))
  }

  lemma RootAtLeast(r: real, a: real, b: real)
    requires IsRoot(r, Square(a) + Square(b)) && a >= 0.0 && b >= 0.0
    ensures r >= a && r >= b && r <= a + b
  {
    MulNonneg(a, a);
    MulNonneg(b, b);
    SquareOrder(a, r);
    SquareOrder(b, r);
    MulNonneg(a, b);
    assert (a + b) * (a + b) == a * a + 2.0 * (a * b) + b * b;
    SquareOrder(r, a + b);
  }

  /** The Newcombe interval of two intervals that contain their rates contains the observed difference, stays
    * inside [-1, 1], is never narrower than moving one rate alone to the end of its interval, and never wider
    * than moving both. */
  lemma NewcombeContainsDifference(p1: real, i1: Interval, p2: real, i2: Interval, rootLow: real, rootHigh: real)
    requires Holds(i1, p1) && Holds(i2, p2) && NewcombeRoots(p1, i1, p2, i2, rootLow, rootHigh)
    ensures var d := Newcombe(p1, i1, p2, i2, rootLow, rootHigh);
      && -1.0 <= d.low <= p2 - p1 <= d.high <= 1.0
      && i2.low - i1.high <= d.low <= Min(i2.low - p1, p2 - i1.high)
      && Max(i2.high - p1, p2 - i1.low) <= d.high <= i2.high - i1.low
  {
    RootAtLeast(rootLow, p2 - i2.low, i1.high - p1);
    RootAtLeast(rootHigh, i2.high - p2, p1 - i1.low);
  }

  /** Exchanging baseline and candidate mirrors the interval. */
  lemma NewcombeMirrors(p1: real, i1: Interval, p2: real, i2: Interval, rootLow: real, rootHigh: real)
    requires NewcombeRoots(p1, i1, p2, i2, rootLow, rootHigh)
    ensures NewcombeRoots(p2, i2, p1, i1, rootHigh, rootLow)
    ensures var d, e := Newcombe(p1, i1, p2, i2, rootLow, rootHigh), Newcombe(p2, i2, p1, i1, rootHigh, rootLow);
      e.low == -d.high && e.high == -d.low
  {
    assert Square(p1 - i1.low) + Square(i2.high - p2) == Square(i2.high - p2) + Square(p1 - i1.low);
  }

  // ----- percentiles -----

  function Ceil(x: real): int {
    if x.Floor as real == x then x.Floor else x.Floor + 1
  }

  function PercentileIndex(count: nat, q: real): int {
    Ceil(q * (count as real)) - 1
  }

  predicate Sorted(xs: seq<int>) {
    forall i, j :: 0 <= i < j < |xs| ==> xs[i] <= xs[j]
  }

  lemma CeilIs(x: real)
    ensures Ceil(x) as real >= x && (Ceil(x) - 1) as real < x
  {
  }

  /** `percentile` is the nearest-rank one: of the sorted values, at least the share q is at most the result,
    * and the values before it are fewer than that share. */
  lemma PercentileIsNearestRank(xs: seq<int>, q: real)
    requires |xs| > 0 && Sorted(xs) && 0.0 < q <= 1.0
    ensures var k := PercentileIndex(|xs|, q);
      && 0 <= k < |xs|
      && (forall i :: 0 <= i <= k ==> xs[i] <= xs[k]) && (k + 1) as real >= q * (|xs| as real)
      && (forall i :: 0 <= i < |xs| && xs[i] < xs[k] ==> i < k) && (k as real) < q * (|xs| as real)
  {
    var x, n := q * (|xs| as real), |xs| as real;
    PosPos(q, n);
    MulNonneg(1.0 - q, n);
    assert (1.0 - q) * n == n - x;
    CeilIs(x);
  }
}
