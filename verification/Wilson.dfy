/** The Wilson score interval, and its exact reading as a polynomial test on the counts.
    The square root is an argument `s` with s >= 0 and s * s equal to the discriminant. */
module Wilson {

  function Square(x: real): real { x * x }

  function Discriminant(k: nat, n: nat, z: real): real
    requires n > 0
  {
    var phat := k as real / n as real;
    phat * (1.0 - phat) / n as real + Square(z) / (4.0 * Square(n as real))
  }

  predicate IsRoot(s: real, k: nat, n: nat, z: real) {
    s >= 0.0 && (n > 0 ==> s * s == Discriminant(k, n, z))
  }

  function Max(x: real, y: real): real { if x < y then y else x }
  function Min(x: real, y: real): real { if x < y then x else y }

  function Interval(k: nat, n: nat, z: real, s: real): (real, real) {
    if n == 0 then (0.0, 0.0)
    else
      var phat := k as real / n as real;
      var denom := 1.0 + Square(z) / n as real;
      var center := (phat + Square(z) / (2.0 * n as real)) / denom;
      var margin := (z * s) / denom;
      (Max(0.0, center - margin), Min(1.0, center + margin))
  }

  // ---------------------------------------------------------------- the test in the abstract

  /** With a = z*z/n and t = z*s: the interval's lower end times 1 + a. */
  lemma DifferenceOfSquares(a: real, p: real, c: real, t: real)
    requires t * t == a * p * (1.0 - p) + a * a / 4.0
    ensures var d := p + a / 2.0 - c * (1.0 + a);
            d * d - t * t == (1.0 + a) * ((p - c) * (p - c) - a * c * (1.0 - c))
  {
    var d := p + a / 2.0 - c * (1.0 + a);
    assert d == (p - c) + a * (0.5 - c);
    assert d * d == (p - c) * (p - c) + 2.0 * a * (p - c) * (0.5 - c) + a * a * (0.5 - c) * (0.5 - c);
  }

  lemma Times(x: real, y: real, f: real)
    requires f >= 0.0 && x >= y
    ensures x * f >= y * f && f * x >= f * y
  {
  }

  lemma LessSquares(x: real, y: real)
    requires 0.0 <= x < y
    ensures x * x < y * y
  {
    assert y * (y - x) > 0.0;
    assert y * y - y * x > 0.0;
    assert x * (y - x) >= 0.0;
    assert x * y - x * x >= 0.0;
  }

  lemma SquareOrder(x: real, y: real)
    requires x >= 0.0 && y >= 0.0
    ensures x >= y <==> x * x >= y * y
  {
    if x >= y {
      Times(x, y, x);
      Times(x, y, y);
    } else {
      LessSquares(x, y);
    }
  }

  lemma ProductSign(x: real, y: real)
    requires x > 0.0
    ensures x * y >= 0.0 <==> y >= 0.0
    ensures x * y > 0.0 <==> y > 0.0
  {
  }

  /** A proportion far enough from c lies on the far side of the interval's centre, above or below. */
  lemma FarAbove(a: real, p: real, c: real)
    requires a > 0.0 && c <= p <= 1.0 && 0.0 < c < 1.0
    requires (p - c) * (p - c) >= a * c * (1.0 - c)
    ensures (p - c) + a * (0.5 - c) >= 0.0
  {
    var u, w, ac := p - c, 1.0 - c, a * c;
    assert u * u >= ac * w;
    Times(w, u, u);
    Spread(w, u, ac);
    ProductSign(w, u - ac);
    assert u >= ac;
    Spread(a, 0.5, c);
  }

  lemma Spread(x: real, y: real, z: real)
    ensures x * (y - z) == x * y - z * x
    ensures z * x == x * z
  {
  }

  lemma FarBelow(a: real, p: real, c: real)
    requires a > 0.0 && 0.0 <= p < c && 0.0 < c < 1.0
    requires (p - c) * (p - c) >= a * c * (1.0 - c)
    ensures (p - c) + a * (0.5 - c) < 0.0
  {
    var u, w, aw := c - p, 1.0 - c, a * (1.0 - c);
    assert u * u == (p - c) * (p - c);
    assert u * u >= aw * c;
    Times(c, u, u);
    Spread(c, u, aw);
    ProductSign(c, u - aw);
    assert u >= aw;
    Spread(a, 1.0, c);
    Spread(a, 0.5, c);
  }

  /** The lower end reaches c exactly when p is above c by enough. */
  lemma LowerTest(a: real, p: real, c: real, t: real)
    requires a > 0.0 && 0.0 <= p <= 1.0 && 0.0 < c < 1.0 && t >= 0.0
    requires t * t == a * p * (1.0 - p) + a * a / 4.0
    ensures p + a / 2.0 - t >= c * (1.0 + a) <==> p >= c && (p - c) * (p - c) >= a * c * (1.0 - c)
    ensures p + a / 2.0 - t > c * (1.0 + a) <==> p >= c && (p - c) * (p - c) > a * c * (1.0 - c)
  {
    var d := p + a / 2.0 - c * (1.0 + a);
    var gap := (p - c) * (p - c) - a * c * (1.0 - c);
    assert d == (p - c) + a * (0.5 - c);
    DifferenceOfSquares(a, p, c, t);
    ProductSign(1.0 + a, gap);
    if d >= 0.0 {
      SquareOrder(d, t);
      SquareOrder(t, d);
    }
    if gap >= 0.0 {
      if p >= c { FarAbove(a, p, c); } else { FarBelow(a, p, c); }
    }
  }

  // ---------------------------------------------------------------- from counts to the abstract test

  lemma Quotient(x: real, m: real)
    requires m > 0.0
    ensures (x / m) * m == x
  {
  }

  lemma PositiveProduct(x: real, y: real, q: real)
    requires x > 0.0 && y > 0.0 && q == x * y
    ensures q > 0.0
  {
  }

  lemma SquarePositive(x: real)
    requires x > 0.0
    ensures Square(x) > 0.0
  {
    PositiveProduct(x, x, Square(x));
  }

  lemma ZeroProduct(x: real, m: real)
    requires m > 0.0 && x * m == 0.0
    ensures x == 0.0
  {
    ProductSign(m, x);
    ProductSign(m, -x);
    assert m * -x == 0.0;
  }

  /** The failure rate is one minus the success rate. */
  lemma Complement(k: nat, n: nat)
    requires k <= n && n > 0
    ensures (n - k) as real / n as real == 1.0 - k as real / n as real
  {
    var m := n as real;
    var p, q := k as real / m, (n - k) as real / m;
    Quotient(k as real, m);
    Quotient((n - k) as real, m);
    assert (p + q - 1.0) * m == p * m + q * m - m;
    ZeroProduct(p + q - 1.0, m);
  }

  lemma QuotientSign(x: real, m: real)
    requires m > 0.0
    ensures x / m >= 0.0 <==> x >= 0.0
    ensures x / m > 0.0 <==> x > 0.0
  {
    Quotient(x, m);
    var q := x / m;
    if q > 0.0 { assert q * m > 0.0; }
    if q < 0.0 { assert q * m < 0.0; }
  }

  /** p = k/n and a = z*z/n lie where they should. */
  lemma Ratios(k: nat, n: nat, z: real)
    requires k <= n && n > 0 && z > 0.0
    ensures Square(z) / n as real > 0.0 && 0.0 <= k as real / n as real <= 1.0
  {
    var m := n as real;
    SquarePositive(z);
    QuotientSign(Square(z), m);
    QuotientSign(k as real, m);
    QuotientSign((n - k) as real, m);
    Complement(k, n);
  }

  /** (z*s)^2 in terms of p = k/n and a = z*z/n. */
  lemma Scaled(k: nat, n: nat, z: real, s: real)
    requires k <= n && n > 0 && z > 0.0 && IsRoot(s, k, n, z)
    ensures var p := k as real / n as real;
            var a := Square(z) / n as real;
            z * s >= 0.0 && (z * s) * (z * s) == a * p * (1.0 - p) + a * a / 4.0
  {
    Quotient(Square(z), n as real);
    SquarePositive(n as real);
    SquareOfMargin(n as real, z, s, k as real / n as real, Square(z) / n as real);
  }

  lemma SquareOfMargin(m: real, z: real, s: real, p: real, a: real)
    requires m > 0.0 && Square(m) > 0.0 && a * m == Square(z)
    requires s * s == p * (1.0 - p) / m + Square(z) / (4.0 * Square(m))
    ensures (z * s) * (z * s) == a * p * (1.0 - p) + a * a / 4.0
  {
    var x, y := p * (1.0 - p) / m, Square(z) / (4.0 * Square(m));
    Quotient(p * (1.0 - p), m);
    Quotient(Square(z), 4.0 * Square(m));
    FourthOf(y, a, m, Square(m));
    assert (z * s) * (z * s) == Square(z) * (s * s);
    assert (a * m) * (x + y) == a * (x * m) + a * (y * m);
  }

  lemma FourthOf(y: real, a: real, m: real, mm: real)
    requires m > 0.0 && mm == m * m && y * (4.0 * mm) == a * m
    ensures y * m == a / 4.0
  {
    assert m * (4.0 * (y * m) - a) == 0.0;
  }

  lemma DivideBy(x: real, d: real, c: real)
    requires d > 0.0
    ensures x / d >= c <==> x >= c * d
    ensures x / d > c <==> x > c * d
    ensures (x / d) * d == x
  {
    var q := x / d;
    assert q * d == x;
    ProductSign(d, q - c);
  }

  function LowerNumerator(k: nat, n: nat, z: real, s: real): real
    requires n > 0
  {
    k as real / n as real + Square(z) / n as real / 2.0 - z * s
  }

  lemma LowerEnd(k: nat, n: nat, z: real, s: real)
    requires n > 0 && z > 0.0
    ensures Interval(k, n, z, s).0 == Max(0.0, LowerNumerator(k, n, z, s) / (1.0 + Square(z) / n as real))
  {
    var m := n as real;
    var denom := 1.0 + Square(z) / m;
    assert denom > 0.0;
    assert Square(z) / (2.0 * m) == Square(z) / m / 2.0;
    var x, y := k as real / m + Square(z) / (2.0 * m), z * s;
    assert x / denom - y / denom == (x - y) / denom;
  }

  /** (k - cn)^2 against z^2 c (1-c) n, for k on the upper side of cn. */
  predicate Clears(k: nat, n: nat, z: real, c: real) {
    var gap := k as real - c * n as real;
    gap >= 0.0 && gap * gap >= Square(z) * c * (1.0 - c) * n as real
  }

  predicate ClearsStrictly(k: nat, n: nat, z: real, c: real) {
    var gap := k as real - c * n as real;
    gap >= 0.0 && gap * gap > Square(z) * c * (1.0 - c) * n as real
  }

  lemma Rescale(k: nat, n: nat, z: real, c: real)
    requires n > 0
    ensures var p := k as real / n as real;
            var a := Square(z) / n as real;
            && ((p >= c && (p - c) * (p - c) >= a * c * (1.0 - c)) <==> Clears(k, n, z, c))
            && ((p >= c && (p - c) * (p - c) > a * c * (1.0 - c)) <==> ClearsStrictly(k, n, z, c))
  {
    var m, mm := n as real, Square(n as real);
    var p, a := k as real / m, Square(z) / m;
    Quotient(k as real, m);
    Quotient(Square(z), m);
    SquarePositive(m);
    var gap, bound := k as real - c * m, Square(z) * c * (1.0 - c) * m;
    var e := (p - c) * (p - c) - a * c * (1.0 - c);
    assert gap == m * (p - c);
    ProductSign(m, p - c);
    assert gap * gap == mm * ((p - c) * (p - c));
    assert bound == mm * (a * c * (1.0 - c)) by {
      assert bound == (a * m) * (c * (1.0 - c) * m);
      assert mm * (a * c * (1.0 - c)) == (a * m) * (c * (1.0 - c) * m);
    }
    assert gap * gap - bound == mm * e;
    ProductSign(mm, e);
  }

  lemma LowerReaches(p: real, a: real, t: real, c: real)
    requires a > 0.0 && 0.0 <= p <= 1.0 && 0.0 < c < 1.0 && t >= 0.0
    requires t * t == a * p * (1.0 - p) + a * a / 4.0
    ensures Max(0.0, (p + a / 2.0 - t) / (1.0 + a)) >= c <==> p >= c && (p - c) * (p - c) >= a * c * (1.0 - c)
    ensures Max(0.0, (p + a / 2.0 - t) / (1.0 + a)) > c <==> p >= c && (p - c) * (p - c) > a * c * (1.0 - c)
  {
    DivideBy(p + a / 2.0 - t, 1.0 + a, c);
    LowerTest(a, p, c, t);
  }

  lemma LowerDecides(lo: real, p: real, a: real, t: real, c: real, clears: bool, strictly: bool)
    requires a > 0.0 && 0.0 <= p <= 1.0 && 0.0 < c < 1.0 && t >= 0.0
    requires t * t == a * p * (1.0 - p) + a * a / 4.0
    requires lo == Max(0.0, (p + a / 2.0 - t) / (1.0 + a))
    requires (p >= c && (p - c) * (p - c) >= a * c * (1.0 - c)) <==> clears
    requires (p >= c && (p - c) * (p - c) > a * c * (1.0 - c)) <==> strictly
    ensures (lo >= c <==> clears) && (lo > c <==> strictly)
  {
    LowerReaches(p, a, t, c);
  }

  /** The interval's lower end in the proportion, the squared margin and the shift of a sample. */
  lemma LowerParts(k: nat, n: nat, z: real, s: real, p: real, a: real, t: real)
    requires k <= n && n > 0 && z > 0.0 && IsRoot(s, k, n, z)
    requires p == k as real / n as real && a == Square(z) / n as real && t == z * s
    ensures a > 0.0 && 0.0 <= p <= 1.0
    ensures t >= 0.0 && t * t == a * p * (1.0 - p) + a * a / 4.0
    ensures Interval(k, n, z, s).0 == Max(0.0, (p + a / 2.0 - t) / (1.0 + a))
  {
    Ratios(k, n, z);
    Scaled(k, n, z, s);
    LowerEnd(k, n, z, s);
  }

  lemma TestParts(k: nat, n: nat, z: real, c: real, p: real, a: real)
    requires k <= n && n > 0 && z > 0.0 && 0.0 < c < 1.0
    requires p == k as real / n as real && a == Square(z) / n as real
    ensures (p >= c && (p - c) * (p - c) >= a * c * (1.0 - c)) <==> Clears(k, n, z, c)
    ensures (p >= c && (p - c) * (p - c) > a * c * (1.0 - c)) <==> ClearsStrictly(k, n, z, c)
  {
    Rescale(k, n, z, c);
  }

  /** The lower end reaches c exactly when the sample clears the score test at c. */
  lemma LowerInverts(k: nat, n: nat, z: real, s: real, c: real)
    requires k <= n && n > 0 && z > 0.0 && 0.0 < c < 1.0 && IsRoot(s, k, n, z)
    ensures Interval(k, n, z, s).0 >= c <==> Clears(k, n, z, c)
    ensures Interval(k, n, z, s).0 > c <==> ClearsStrictly(k, n, z, c)
  {
    var p, a, t := k as real / n as real, Square(z) / n as real, z * s;
    LowerParts(k, n, z, s, p, a, t);
    TestParts(k, n, z, c, p, a);
    LowerDecides(Interval(k, n, z, s).0, p, a, t, c, Clears(k, n, z, c), ClearsStrictly(k, n, z, c));
  }

  // ---------------------------------------------------------------- the upper end, by symmetry

  /** Counting failures instead of successes reflects the interval about one half. */
  lemma Mirror(k: nat, n: nat, z: real, s: real)
    requires k <= n && n > 0 && z > 0.0 && IsRoot(s, k, n, z)
    ensures IsRoot(s, n - k, n, z)
    ensures Interval(k, n, z, s).1 == 1.0 - Interval(n - k, n, z, s).0
  {
    var m := n as real;
    var p, a := k as real / m, Square(z) / m;
    SquarePositive(z);
    QuotientSign(Square(z), m);
    Complement(k, n);
    Quotient(Square(z), m);
    assert Square(z) / (2.0 * m) == a / 2.0;
    Reflect(p, a, z * s);
  }

  lemma Reflect(p: real, a: real, t: real)
    requires a > 0.0
    ensures var d := 1.0 + a;
            (p + a / 2.0) / d + t / d == 1.0 - (((1.0 - p) + a / 2.0) / d - t / d)
  {
    var d := 1.0 + a;
    var x, y, u := (p + a / 2.0) / d, ((1.0 - p) + a / 2.0) / d, t / d;
    Quotient(p + a / 2.0, d);
    Quotient((1.0 - p) + a / 2.0, d);
    assert (x + y - 1.0) * d == x * d + y * d - d;
    ZeroProduct(x + y - 1.0, d);
  }

  lemma GapMirrors(k: nat, n: nat, z: real, c: real)
    requires k <= n
    ensures ClearsStrictly(n - k, n, z, 1.0 - c)
       <==> k as real <= c * n as real
            && (c * n as real - k as real) * (c * n as real - k as real) > Square(z) * c * (1.0 - c) * n as real
  {
    var m := n as real;
    assert (n - k) as real - (1.0 - c) * m == c * m - k as real;
    assert Square(z) * (1.0 - c) * (1.0 - (1.0 - c)) * m == Square(z) * c * (1.0 - c) * m;
  }

  /** The upper end falls below c exactly when the sample lies below cn by enough. */
  lemma UpperInverts(k: nat, n: nat, z: real, s: real, c: real)
    requires k <= n && n > 0 && z > 0.0 && 0.0 < c < 1.0 && IsRoot(s, k, n, z)
    ensures Interval(k, n, z, s).1 < c
       <==> k as real <= c * n as real
            && (c * n as real - k as real) * (c * n as real - k as real) > Square(z) * c * (1.0 - c) * n as real
  {
    Mirror(k, n, z, s);
    LowerInverts(n - k, n, z, s, 1.0 - c);
    GapMirrors(k, n, z, c);
  }

  // ---------------------------------------------------------------- the point estimate, monotonicity, width

  lemma BelowPoint(a: real, p: real, t: real)
    requires a > 0.0 && 0.0 <= p <= 1.0 && t >= 0.0
    requires t * t == a * p * (1.0 - p) + a * a / 4.0
    ensures p + a / 2.0 - t <= p * (1.0 + a)
  {
    var x := a * (0.5 - p);
    assert p + a / 2.0 - p * (1.0 + a) == x;
    if x > 0.0 {
      var v := p * (1.0 - p);
      if p > 0.0 { ProductSign(p, 1.0 - p); }
      assert v >= 0.0;
      assert x * x == (a * a) * (0.25 - v);
      assert a * v >= 0.0;
      assert a * (a * v) >= 0.0;
      assert t * t - x * x == a * v + a * (a * v);
      SquareOrder(t, x);
    }
  }

  lemma LowerBelowPoint(k: nat, n: nat, z: real, s: real)
    requires k <= n && n > 0 && z > 0.0 && IsRoot(s, k, n, z)
    ensures 0.0 <= Interval(k, n, z, s).0 <= k as real / n as real
  {
    var p, a := k as real / n as real, Square(z) / n as real;
    Ratios(k, n, z);
    Scaled(k, n, z, s);
    LowerEnd(k, n, z, s);
    BelowPoint(a, p, z * s);
    ClippedBelow(LowerNumerator(k, n, z, s), 1.0 + a, p);
  }

  lemma ClippedBelow(x: real, d: real, p: real)
    requires d > 0.0 && p >= 0.0 && x <= p * d
    ensures 0.0 <= Max(0.0, x / d) <= p
  {
    DivideBy(x, d, p);
  }

  /** The interval contains the observed rate and stays within [0, 1]. */
  lemma ContainsPoint(k: nat, n: nat, z: real, s: real)
    requires k <= n && n > 0 && z > 0.0 && IsRoot(s, k, n, z)
    ensures var (lo, hi) := Interval(k, n, z, s);
            0.0 <= lo <= k as real / n as real <= hi <= 1.0
  {
    LowerBelowPoint(k, n, z, s);
    Mirror(k, n, z, s);
    LowerBelowPoint(n - k, n, z, s);
    Complement(k, n);
  }

  lemma ClearsMore(k: nat, k': nat, n: nat, z: real, c: real)
    requires k <= k' && Clears(k, n, z, c)
    ensures Clears(k', n, z, c)
  {
    SquareOrder(k' as real - c * n as real, k as real - c * n as real);
  }

  lemma LowerMonotone(k: nat, k': nat, n: nat, z: real, s: real, s': real)
    requires k < k' <= n && z > 0.0 && IsRoot(s, k, n, z) && IsRoot(s', k', n, z)
    ensures Interval(k, n, z, s).0 <= Interval(k', n, z, s').0
  {
    var c := Interval(k, n, z, s).0;
    LowerBelowPoint(k, n, z, s);
    LowerBelowPoint(k', n, z, s');
    if c > 0.0 {
      var p := k as real / n as real;
      Quotient(k as real, n as real);
      assert p < 1.0 by { if p >= 1.0 { Times(p, 1.0, n as real); } }
      LowerInverts(k, n, z, s, c);
      ClearsMore(k, k', n, z, c);
      LowerInverts(k', n, z, s', c);
    }
  }

  /** More successes never lower either end. */
  lemma Monotone(k: nat, k': nat, n: nat, z: real, s: real, s': real)
    requires k < k' <= n && z > 0.0 && IsRoot(s, k, n, z) && IsRoot(s', k', n, z)
    ensures Interval(k, n, z, s).0 <= Interval(k', n, z, s').0
    ensures Interval(k, n, z, s).1 <= Interval(k', n, z, s').1
  {
    LowerMonotone(k, k', n, z, s, s');
    Mirror(k, n, z, s);
    Mirror(k', n, z, s');
    LowerMonotone(n - k', n - k, n, z, s', s);
  }

  lemma HalfWidth(a: real, p: real, t: real)
    requires 0.0 < a <= 0.1296 / 0.8704 && 0.0 <= p <= 1.0 && t >= 0.0
    requires t * t == a * p * (1.0 - p) + a * a / 4.0
    ensures t <= 0.18 * (1.0 + a)
  {
    var v := p * (1.0 - p);
    assert (p - 0.5) * (p - 0.5) == 0.25 - v;
    SquareNonNegative(p - 0.5);
    assert v <= 0.25;
    Times(0.25, v, a);
    assert a * p * (1.0 - p) == a * v;
    var b := 0.18 * (1.0 + a);
    assert b * b == 0.0324 * (1.0 + 2.0 * a + a * a);
    assert b * b - t * t >= 0.0324 + 0.0648 * a + 0.0324 * (a * a) - a * 0.25 - a * a / 4.0;
    assert 0.0324 + 0.0648 * a + 0.0324 * (a * a) - a * 0.25 - a * a / 4.0
        == 0.25 * ((1.0 + a) * (0.1296 - 0.8704 * a));
    assert (1.0 + a) * (0.1296 - 0.8704 * a) >= 0.0;
    SquareOrder(b, t);
  }

  lemma SquareNonNegative(x: real)
    ensures x * x >= 0.0
  {
    if x >= 0.0 { Times(x, 0.0, x); } else { Times(-x, 0.0, -x); assert (-x) * (-x) == x * x; }
  }

  const Z95: real := 1.96

  lemma SmallRatio(m: real)
    requires m >= 30.0
    ensures 0.0 < 3.8416 / m <= 0.1296 / 0.8704
  {
    var a := 3.8416 / m;
    QuotientSign(3.8416, m);
    Quotient(3.8416, m);
    Times(m, 30.0, a);
  }

  lemma EndsApart(k: nat, n: nat, z: real, s: real, w: real)
    requires k <= n && n > 0 && z > 0.0 && s >= 0.0
    requires z * s / (1.0 + Square(z) / n as real) <= w
    ensures Interval(k, n, z, s).1 - Interval(k, n, z, s).0 <= 2.0 * w
  {
  }

  /** At 95% and 30 observations or more the half-width is at most 0.18, whatever the count. */
  lemma WidthFromThirty(k: nat, n: nat, s: real)
    requires k <= n && n >= 30 && IsRoot(s, k, n, Z95)
    ensures var (lo, hi) := Interval(k, n, Z95, s);
            (hi - lo) / 2.0 <= 0.18
  {
    var p, a := k as real / n as real, Square(Z95) / n as real;
    assert Square(Z95) == 3.8416;
    SmallRatio(n as real);
    Ratios(k, n, Z95);
    Scaled(k, n, Z95, s);
    HalfWidth(a, p, Z95 * s);
    DivideBy(Z95 * s, 1.0 + a, 0.18);
    EndsApart(k, n, Z95, s, 0.18);
  }
}
