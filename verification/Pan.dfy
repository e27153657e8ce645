/**
The measured pan law: the magnitude is tabulated at |p| = 0, 0.05, …, 1 and interpolated
by Catmull-Rom cubics; the direction is the sine taper. And the smoothed gain pair that
follows it.
*/
module Pan {
  import opened Options
  import opened Reals
  import opened Ramps

  const MAGNITUDE: seq<real> := [
    1.4142135623730951, 1.413442003770097, 1.4111213638902695, 1.407233637679557, 1.4017484365850923,
    1.3946224041647768, 1.3857983687078865, 1.3752042016004387, 1.3627513381348282, 1.3483329027347901,
    1.3318213620807011, 1.3130656059467758, 1.2918873247387341, 1.2680765120099933, 1.2413858657590862,
    1.2115237885030046, 1.1781455848733056, 1.1408423148202314, 1.0991265624823106, 1.052414098036256,
    1.0]

  const GHOST: real := 0.947585901963744

  function Node(k: nat): real {
    if k < |MAGNITUDE| then MAGNITUDE[k] else GHOST
  }

  /** |i − 1|: the node before the first segment is the one after it, mirrored. */
  function Before(i: nat): nat {
    if i == 0 then 1 else i - 1
  }

  /** The Catmull-Rom cubic of four neighbouring values. */
  function Cubic(y0: real, y1: real, y2: real, y3: real, t: real): real {
    y1 + 0.5 * t * (y2 - y0 + t * (2.0 * y0 - 5.0 * y1 + 4.0 * y2 - y3 + t * (3.0 * (y1 - y2) + y3 - y0)))
  }

  function Segment(i: nat, t: real): real {
    Cubic(Node(Before(i)), Node(i), Node(i + 1), Node(i + 2), t)
  }

  function Index(a: real): nat
    requires a >= 0.0
  {
    var i := (a * 20.0).Floor;
    if i <= 20 then i else 20
  }

  /** The interpolated magnitude for a = |p| in [0, 1]. */
  function Magnitude(a: real): real
    requires a >= 0.0
  {
    Segment(Index(a), a * 20.0 - Index(a) as real)
  }

  // ----- a segment by its Bézier control points

  /** b0 ≥ b1 ≥ b2 ≥ b3 for the control points of the cubic: y1, y1 + (y2 − y0)/6,
      y2 − (y3 − y1)/6, y2. */
  ghost predicate Falling(y0: real, y1: real, y2: real, y3: real) {
    && y0 >= y2
    && y1 + (y2 - y0) / 6.0 >= y2 - (y3 - y1) / 6.0
    && y1 >= y3
  }

  /** The cubic's fall from s to t, by the falls d0, d1, d2 between its control points: a
      non-negative combination of them. */
  lemma FallIs(y0: real, y1: real, y2: real, y3: real, s: real, t: real)
    ensures var d0, d1, d2 := (y0 - y2) / 6.0, y1 + (y2 - y0) / 6.0 - (y2 - (y3 - y1) / 6.0), (y1 - y3) / 6.0;
            Cubic(y0, y1, y2, y3, s) - Cubic(y0, y1, y2, y3, t) ==
            Fall(d0, d1, d2, s, t)
  {
    var d0, d1, d2 := (y0 - y2) / 6.0, y1 + (y2 - y0) / 6.0 - (y2 - (y3 - y1) / 6.0), (y1 - y3) / 6.0;
    var a, b, c := 0.5 * (y2 - y0), y0 - 2.5 * y1 + 2.0 * y2 - 0.5 * y3, 0.5 * (3.0 * (y1 - y2) + y3 - y0);
    CubicIs(y0, y1, y2, y3, s, a, b, c);
    CubicIs(y0, y1, y2, y3, t, a, b, c);
    hide Cubic, Fall, Polynomial;
    PolynomialFalls(y1, a, b, c, s, t);
    FallOf(d0, d1, d2, a, b, c, s, t);
  }

  function Polynomial(y: real, a: real, b: real, c: real, t: real): real {
    y + a * t + b * (t * t) + c * (t * t * t)
  }

  lemma CubicIs(y0: real, y1: real, y2: real, y3: real, t: real, a: real, b: real, c: real)
    requires a == 0.5 * (y2 - y0) && b == y0 - 2.5 * y1 + 2.0 * y2 - 0.5 * y3
    requires c == 0.5 * (3.0 * (y1 - y2) + y3 - y0)
    ensures Cubic(y0, y1, y2, y3, t) == Polynomial(y1, a, b, c, t)
  {
    assert Cubic(y0, y1, y2, y3, t) == y1 + t * (a + t * (b + t * c));
    assert t * (b + t * c) == b * t + c * (t * t);
    assert t * (b * t + c * (t * t)) == b * (t * t) + c * (t * t * t);
  }

  function Slope(a: real, b: real, c: real, p: real, q: real): real {
    a + b * p + c * q
  }

  lemma PolynomialFalls(y: real, a: real, b: real, c: real, s: real, t: real)
    ensures Polynomial(y, a, b, c, s) - Polynomial(y, a, b, c, t) ==
            -((t - s) * Slope(a, b, c, s + t, s * s + s * t + t * t))
  {
    var d := t - s;
    assert t * t - s * s == d * (s + t);
    assert t * t * t - s * s * s == d * (s * s + s * t + t * t);
    assert b * (d * (s + t)) == d * (b * (s + t));
    assert c * (d * (s * s + s * t + t * t)) == d * (c * (s * s + s * t + t * t));
  }

  lemma FallOf(d0: real, d1: real, d2: real, a: real, b: real, c: real, s: real, t: real)
    requires a == -3.0 * d0 && b == 3.0 * (d0 - d1) && c == 2.0 * d1 - d0 - d2
    ensures Fall(d0, d1, d2, s, t) == -((t - s) * Slope(a, b, c, s + t, s * s + s * t + t * t))
  {
    var p, q := s + t, s * s + s * t + t * t;
    assert W0(s, t) == 3.0 - 3.0 * p + q;
    assert W1(s, t) == 3.0 * p - 2.0 * q;
    Combined(d0, d1, d2, a, b, c, p, q, W0(s, t), W1(s, t));
    hide W0, W1;
  }

  lemma Combined(d0: real, d1: real, d2: real, a: real, b: real, c: real, p: real, q: real, w0: real, w1: real)
    requires a == -3.0 * d0 && b == 3.0 * (d0 - d1) && c == 2.0 * d1 - d0 - d2
    requires w0 == 3.0 - 3.0 * p + q && w1 == 3.0 * p - 2.0 * q
    ensures d0 * w0 + d1 * w1 + d2 * q == -Slope(a, b, c, p, q)
  {
    assert d0 * w0 == 3.0 * d0 - 3.0 * (d0 * p) + d0 * q;
    assert d1 * w1 == 3.0 * (d1 * p) - 2.0 * (d1 * q);
    assert b * p == 3.0 * (d0 * p) - 3.0 * (d1 * p);
    assert c * q == 2.0 * (d1 * q) - d0 * q - d2 * q;
  }

  function Fall(d0: real, d1: real, d2: real, s: real, t: real): real {
    (t - s) * (d0 * W0(s, t) + d1 * W1(s, t) + d2 * W2(s, t))
  }

  // the weights: integrals of the quadratic Bernstein polynomials over [s, t], divided by t − s

  function W0(s: real, t: real): real {
    var u, v := 1.0 - s, 1.0 - t;
    u * u + u * v + v * v
  }

  function W1(s: real, t: real): real {
    3.0 * (s + t) - 2.0 * (s * s + s * t + t * t)
  }

  function W2(s: real, t: real): real {
    s * s + s * t + t * t
  }

  lemma OuterWeight(u: real, v: real)
    requires u >= 0.0 && v >= 0.0
    ensures u * u + u * v + v * v >= 0.0
  {
  }

  lemma MiddleWeight(s: real, t: real)
    requires 0.0 <= s <= 1.0 && 0.0 <= t <= 1.0
    ensures W1(s, t) >= 0.0
  {
    NotNegative(s, 1.0 - s);
    NotNegative(t, 1.0 - t);
    NotNegative(s, 1.0 - t);
    NotNegative(t, 1.0 - s);
    assert W1(s, t) == 2.0 * (s * (1.0 - s)) + 2.0 * (t * (1.0 - t)) + s * (1.0 - t) + t * (1.0 - s);
  }

  lemma WeightsNotNegative(s: real, t: real)
    requires 0.0 <= s <= 1.0 && 0.0 <= t <= 1.0
    ensures W0(s, t) >= 0.0 && W1(s, t) >= 0.0 && W2(s, t) >= 0.0
  {
    OuterWeight(1.0 - s, 1.0 - t);
    OuterWeight(s, t);
    MiddleWeight(s, t);
    hide W1;
  }

  lemma NotNegative(x: real, y: real)
    requires x >= 0.0 && y >= 0.0
    ensures x * y >= 0.0
  {
  }

  /** A cubic with falling control points falls over the whole segment. */
  lemma FallingCubic(y0: real, y1: real, y2: real, y3: real, s: real, t: real)
    requires Falling(y0, y1, y2, y3) && 0.0 <= s <= t <= 1.0
    ensures Cubic(y0, y1, y2, y3, s) >= Cubic(y0, y1, y2, y3, t)
  {
    var d0, d1, d2 := (y0 - y2) / 6.0, y1 + (y2 - y0) / 6.0 - (y2 - (y3 - y1) / 6.0), (y1 - y3) / 6.0;
    FallIs(y0, y1, y2, y3, s, t);
    FallNotNegative(d0, d1, d2, s, t);
    hide Cubic, Fall;
  }

  lemma FallNotNegative(d0: real, d1: real, d2: real, s: real, t: real)
    requires d0 >= 0.0 && d1 >= 0.0 && d2 >= 0.0 && 0.0 <= s <= t <= 1.0
    ensures Fall(d0, d1, d2, s, t) >= 0.0
  {
    WeightsNotNegative(s, t);
    hide W0, W1, W2;
    NotNegative(d0, W0(s, t));
    NotNegative(d1, W1(s, t));
    NotNegative(d2, W2(s, t));
    NotNegative(t - s, d0 * W0(s, t) + d1 * W1(s, t) + d2 * W2(s, t));
  }

  /** The measured table: every segment's control points fall, the mirrored first one and
      the one that ends on the ghost node included. */
  lemma TableFalls(i: nat)
    requires i <= 20
    ensures Falling(Node(Before(i)), Node(i), Node(i + 1), Node(i + 2))
  {
    if i <= 10 {
      FirstHalfFalls(i);
    } else {
      SecondHalfFalls(i);
    }
  }

  lemma FirstHalfFalls(i: nat)
    requires i <= 10
    ensures Falling(Node(Before(i)), Node(i), Node(i + 1), Node(i + 2))
  {
    if i == 0 {
    } else if i == 1 {
    } else if i == 2 {
    } else if i == 3 {
    } else if i == 4 {
    } else if i == 5 {
    } else if i == 6 {
    } else if i == 7 {
    } else if i == 8 {
    } else if i == 9 {
    } else {
    }
  }

  lemma SecondHalfFalls(i: nat)
    requires 11 <= i <= 20
    ensures Falling(Node(Before(i)), Node(i), Node(i + 1), Node(i + 2))
  {
    if i == 11 {
    } else if i == 12 {
    } else if i == 13 {
    } else if i == 14 {
    } else if i == 15 {
    } else if i == 16 {
    } else if i == 17 {
    } else if i == 18 {
    } else if i == 19 {
    } else {
    }
  }

  lemma SegmentEnds(i: nat)
    ensures Segment(i, 0.0) == Node(i) && Segment(i, 1.0) == Node(i + 1)
  {
  }

  lemma SegmentFalls(i: nat, s: real, t: real)
    requires i <= 20 && 0.0 <= s <= t <= 1.0
    ensures Segment(i, s) >= Segment(i, t)
  {
    TableFalls(i);
    FallingCubic(Node(Before(i)), Node(i), Node(i + 1), Node(i + 2), s, t);
  }

  /** The nodes fall, too. */
  lemma {:induction false} NodesFall(i: nat, j: nat)
    requires i <= j <= 20
    ensures Node(i) >= Node(j)
    decreases j - i
  {
    if i < j {
      SegmentEnds(i);
      SegmentFalls(i, 0.0, 1.0);
      hide Node, Segment;
      NodesFall(i + 1, j);
    }
  }

  lemma IndexRange(a: real)
    requires 0.0 <= a <= 1.0
    ensures Index(a) <= 20 && 0.0 <= a * 20.0 - Index(a) as real < 1.0
  {
  }

  /** The magnitude hits every measured node, and neighbouring segments join there. */
  lemma HitsNodes(k: nat)
    requires k <= 20
    ensures Magnitude(k as real / 20.0) == Node(k)
    ensures Segment(k, 1.0) == Node(k + 1) == Segment(k + 1, 0.0)
  {
    assert k as real / 20.0 * 20.0 == k as real;
    assert Index(k as real / 20.0) == k;
    SegmentEnds(k);
    SegmentEnds(k + 1);
  }

  /** And it never rises from the centre to the side, over every pair of positions. */
  lemma MagnitudeFalls(a: real, b: real)
    requires 0.0 <= a <= b <= 1.0
    ensures Magnitude(a) >= Magnitude(b)
  {
    IndexRange(a);
    IndexRange(b);
    var i, j := Index(a), Index(b);
    var s, t := a * 20.0 - i as real, b * 20.0 - j as real;
    assert i <= j;
    hide Segment, Node, Index;
    if i == j {
      SegmentFalls(i, s, t);
    } else {
      SegmentFalls(i, s, 1.0);
      SegmentEnds(i);
      NodesFall(i + 1, j);
      SegmentEnds(j);
      SegmentFalls(j, 0.0, t);
    }
  }

  lemma MagnitudeRange(a: real)
    requires 0.0 <= a <= 1.0
    ensures 1.0 <= Magnitude(a) <= MAGNITUDE[0]
  {
    var zero, one := 0.0, 1.0;
    MagnitudeFalls(zero, a);
    MagnitudeFalls(a, one);
    assert Index(zero) == 0 && Index(one) == 20;
    SegmentEnds(0);
    SegmentEnds(20);
  }

  // ----- the gains

  /** What the sine taper needs: `sin` and a quarter of π. */
  datatype Taper = Taper(sin: real -> real, quarterPi: real) {
    function Leg(x: real): real {
      sin(Product(x, quarterPi))
    }

    function Left(p: real): real {
      Leg(1.0 - p)
    }

    function Right(p: real): real {
      Leg(1.0 + p)
    }

    /** The two angles of a pan position add up to a right angle. */
    ghost predicate Complementary(p: real) {
      Left(p) * Left(p) + Right(p) * Right(p) == 1.0
    }

    /** The sine from 0 to a right angle: from 0 to 1, growing. */
    ghost predicate Rising() {
      && quarterPi > 0.0 && sin(0.0) == 0.0 && sin(2.0 * quarterPi) == 1.0
      && forall x, y :: 0.0 <= x < y <= 2.0 * quarterPi ==> sin(x) < sin(y)
    }
  }

  function ClampPan(p: real): (c: real)
    ensures -1.0 <= c <= 1.0
  {
    if p < -1.0 then -1.0 else if p > 1.0 then 1.0 else p
  }

  datatype Pair = Pair(l: real, r: real)

  function GainsAt(w: Taper, c: real): Pair {
    Pair(Product(Magnitude(Abs(c)), w.Left(c)), Product(Magnitude(Abs(c)), w.Right(c)))
  }

  function Gains(w: Taper, p: real): Pair {
    GainsAt(w, ClampPan(p))
  }

  function SendGains(w: Taper, vol: real, muted: bool, pan: real): Pair {
    if muted then Pair(0.0, 0.0) else Pair(Product(vol, Gains(w, pan).l), Product(vol, Gains(w, pan).r))
  }

  /** Left and right are exact mirror images. */
  lemma GainsMirror(w: Taper, p: real)
    ensures Gains(w, -p) == Pair(Gains(w, p).r, Gains(w, p).l)
  {
    hide GainsAt;
    if p < -1.0 {
      MirrorAt(w, -1.0);
    } else if p > 1.0 {
      MirrorAt(w, 1.0);
    } else {
      MirrorAt(w, p);
    }
  }

  lemma MirrorAt(w: Taper, c: real)
    ensures GainsAt(w, -c) == Pair(GainsAt(w, c).r, GainsAt(w, c).l)
  {
    SameDistance(c);
    LegsMirror(w, c);
    hide Product, Taper.Left, Taper.Right, Magnitude;
  }

  lemma SameDistance(c: real)
    ensures Abs(-c) == Abs(c)
  {
  }

  lemma LegsMirror(w: Taper, c: real)
    ensures w.Left(-c) == w.Right(c) && w.Right(-c) == w.Left(c)
  {
  }

  function Power(g: Pair): real {
    g.l * g.l + g.r * g.r
  }

  /** The power of the pair is the square of the magnitude, so it falls from the centre's
      to 1 at the sides and never leaves that range. */
  lemma GainsPower(w: Taper, p: real)
    requires w.Complementary(ClampPan(p))
    ensures Power(Gains(w, p)) == Square(Magnitude(Abs(ClampPan(p))))
    ensures 1.0 <= Power(Gains(w, p)) <= Square(MAGNITUDE[0])
  {
    var c := ClampPan(p);
    PowerIs(w, Magnitude(Abs(c)), c);
    hide Power, Square, Magnitude, Taper.Complementary, Product;
    MagnitudeRange(Abs(c));
    SquareGrows(1.0, Magnitude(Abs(c)));
    SquareGrows(Magnitude(Abs(c)), MAGNITUDE[0]);
    UnitSquare();
  }

  lemma PowerIs(w: Taper, m: real, c: real)
    requires w.Complementary(c)
    ensures Power(Pair(Product(m, w.Left(c)), Product(m, w.Right(c)))) == Square(m)
  {
    var l, r := w.Left(c), w.Right(c);
    hide Taper.Left, Taper.Right;
    assert (m * l) * (m * l) + (m * r) * (m * r) == (m * m) * (l * l + r * r);
  }

  lemma SquareGrows(x: real, y: real)
    requires 0.0 <= x <= y
    ensures Square(x) <= Square(y)
  {
  }

  lemma UnitSquare()
    ensures Square(1.0) == 1.0
  {
  }

  // ----- which side is which

  /** Wholly to one side the other is silent. */
  lemma SidesAreSilent(w: Taper, p: real)
    requires w.Rising()
    ensures p >= 1.0 ==> Gains(w, p) == Pair(0.0, 1.0)
    ensures p <= -1.0 ==> Gains(w, p) == Pair(1.0, 0.0)
  {
    var one := 1.0;
    assert Index(one) == 20;
    SegmentEnds(20);
    assert Magnitude(1.0) == 1.0;
    hide Magnitude;
    assert (1.0 + 1.0) * w.quarterPi == 2.0 * w.quarterPi && 0.0 * w.quarterPi == 0.0;
  }

  /** The taper's two legs between two positions: the left one falls, the right one grows. */
  lemma LegsCross(w: Taper, p: real, q: real)
    requires w.Rising() && -1.0 <= p < q <= 1.0
    ensures 0.0 <= w.Left(q) < w.Left(p) && 0.0 <= w.Right(p) < w.Right(q)
  {
    hide Taper.Leg, Taper.Rising;
    AnglesGrow(w, 1.0 - q, 1.0 - p);
    AnglesGrow(w, 1.0 + p, 1.0 + q);
  }

  lemma AnglesGrow(w: Taper, x: real, y: real)
    requires w.Rising() && 0.0 <= x < y <= 2.0
    ensures 0.0 <= w.Leg(x) < w.Leg(y)
  {
    QuarterPositive(w);
    hide Taper.Rising, Product;
    InOrder(x, y, w.quarterPi);
    SineGrows(w, Product(x, w.quarterPi), Product(y, w.quarterPi));
  }

  lemma QuarterPositive(w: Taper)
    requires w.Rising()
    ensures w.quarterPi > 0.0
  {
  }

  lemma SineGrows(w: Taper, a: real, b: real)
    requires w.Rising() && 0.0 <= a < b <= 2.0 * w.quarterPi
    ensures 0.0 <= w.sin(a) < w.sin(b)
  {
    if a > 0.0 {
      assert w.sin(0.0) < w.sin(a);
    }
  }

  lemma InOrder(x: real, y: real, q: real)
    requires q > 0.0 && 0.0 <= x < y <= 2.0
    ensures 0.0 <= Product(x, q) < Product(y, q) <= 2.0 * q
  {
    assert (y - x) * q > 0.0 && (2.0 - y) * q >= 0.0;
  }

  /** The further right, the larger the right gain's share: r : l grows strictly with p. */
  lemma ShareGrows(w: Taper, p: real, q: real)
    requires w.Rising() && -1.0 <= p < q <= 1.0
    ensures Gains(w, p).l >= 0.0 && Gains(w, p).r >= 0.0
    ensures Product(Gains(w, p).r, Gains(w, q).l) < Product(Gains(w, q).r, Gains(w, p).l)
  {
    LegsCross(w, p, q);
    MagnitudeRange(Abs(p));
    MagnitudeRange(Abs(q));
    hide Magnitude, Taper.Left, Taper.Right, Taper.Rising;
    ShareOf(Magnitude(Abs(p)), Magnitude(Abs(q)), w.Left(p), w.Right(p), w.Left(q), w.Right(q));
  }

  lemma ShareOf(m: real, n: real, l: real, r: real, l': real, r': real)
    requires m >= 1.0 && n >= 1.0 && 0.0 <= l' < l && 0.0 <= r < r'
    ensures Product(m, l) >= 0.0 && Product(m, r) >= 0.0
    ensures Product(Product(m, r), Product(n, l')) < Product(Product(n, r'), Product(m, l))
  {
    assert r' * l' >= r * l' by { assert (r' - r) * l' >= 0.0; }
    assert r' * l > r' * l' by { assert r' * (l - l') > 0.0; }
    var c, x, y := m * n, r * l', r' * l;
    assert c > 0.0;
    assert (m * r) * (n * l') == c * x && (n * r') * (m * l) == c * y;
    assert c * (y - x) > 0.0;
  }

  /** The louder side is the one panned to. */
  lemma LouderSide(w: Taper, p: real)
    requires w.Rising()
    ensures Gains(w, p).r > Gains(w, p).l <==> p > 0.0
    ensures Gains(w, p).r < Gains(w, p).l <==> p < 0.0
  {
    var c := ClampPan(p);
    MagnitudeRange(Abs(c));
    var m := Magnitude(Abs(c));
    hide Magnitude, Product, Taper.Leg, Taper.Rising;
    if c != 0.0 {
      AnglesGrow(w, if c > 0.0 then 1.0 - c else 1.0 + c, if c > 0.0 then 1.0 + c else 1.0 - c);
      LouderLeg(m, w.Left(c), w.Right(c));
    }
  }

  lemma LouderLeg(m: real, x: real, y: real)
    requires m >= 1.0
    ensures x < y <==> Product(m, x) < Product(m, y)
    ensures x > y <==> Product(m, x) > Product(m, y)
  {
    assert m * (y - x) == m * y - m * x;
    if x < y {
      assert m * (y - x) > 0.0;
    } else if x > y {
      assert m * (x - y) > 0.0;
    }
  }

  // ----- the smoothed pair

  datatype GainState = GainState(l: RampState, r: RampState, on: RampState) {
    ghost predicate Valid() {
      l.Valid() && r.Valid() && on.Valid()
    }

    predicate Moving() {
      l.Moving() || r.Moving() || on.Moving()
    }

    function Tick(): GainState {
      GainState(l.Tick(), r.Tick(), on.Tick())
    }

    /** The gains of the sample this state was ticked to. */
    function Now(): Pair {
      Pair(Product(l.value, on.value), Product(r.value, on.value))
    }

    function Ticks(n: nat): GainState {
      if n == 0 then this else Ticks(n - 1).Tick()
    }
  }

  /** While no ramp moves, every later tick returns what the fast path returns now. */
  lemma {:induction false} SteadyStays(g: GainState, n: nat)
    requires !g.Moving()
    ensures g.Ticks(n) == g && g.Ticks(n).Tick().Now() == g.Now()
  {
    if n > 0 {
      SteadyStays(g, n - 1);
    }
  }

  /** And while one does, the fast path ends: after as many ticks as the longest ramp, the
      pair rests exactly on its targets. */
  lemma {:induction false} SteadyComes(g: GainState, n: nat)
    requires g.Valid()
    ensures var e := g.Ticks(n);
            && e.Valid() && e.l.target == g.l.target && e.r.target == g.r.target && e.on.target == g.on.target
            && (e.Moving() <==> n < g.l.left || n < g.r.left || n < g.on.left)
            && e.l.left == (if n <= g.l.left then g.l.left - n else 0)
            && e.r.left == (if n <= g.r.left then g.r.left - n else 0)
            && e.on.left == (if n <= g.on.left then g.on.left - n else 0)
            && (!e.Moving() ==> e.Now() == Pair(Product(g.l.target, g.on.target), Product(g.r.target, g.on.target)))
  {
    if n > 0 {
      SteadyComes(g, n - 1);
      var p := g.Ticks(n - 1);
      TickKeepsValid(p.l);
      TickKeepsValid(p.r);
      TickKeepsValid(p.on);
      hide RampState.Tick;
    }
  }

  /** What a set leads to, once its ramps have run: the volume times the pan's gains, or
      silence when muted. */
  lemma SetLeadsTo(w: Taper, g: GainState, vol: real, muted: bool, pan: real, n: nat)
    requires g.Valid() && n >= g.l.left && n >= g.r.left && n >= g.on.left
    requires Pair(g.l.target, g.r.target) == SendGains(w, vol, false, pan) && g.on.target == if muted then 0.0 else 1.0
    ensures !g.Ticks(n).Moving()
    ensures muted ==> g.Ticks(n).Now() == Pair(0.0, 0.0)
    ensures !muted ==> g.Ticks(n).Now() == Pair(vol * Gains(w, pan).l, vol * Gains(w, pan).r)
  {
    hide Gains;
    SteadyComes(g, n);
    hide GainState.Ticks, GainState.Now, GainState.Moving;
  }

  class StereoGain {
    const taper: Taper
    var l: RampState
    var r: RampState
    var on: RampState

    ghost function State(): GainState
      reads this
    {
      GainState(l, r, on)
    }

    constructor (taper: Taper, gainLen: nat, muteLen: nat, vol: real, muted: bool, pan: real)
      ensures State().Valid() && !State().Moving() && this.taper == taper
      ensures State().Now() == SendGains(taper, vol, muted, pan)
    {
      var g := SendGains(taper, vol, false, pan);
      this.taper := taper;
      l := Resting(g.l, gainLen);
      r := Resting(g.r, gainLen);
      on := Resting(if muted then 0.0 else 1.0, muteLen);
    }

    method Set(vol: real, muted: bool, pan: real)
      requires State().Valid()
      modifies this
      ensures State().Valid()
      ensures Pair(l.target, r.target) == SendGains(taper, vol, false, pan)
      ensures on.target == if muted then 0.0 else 1.0
      ensures State().Now() == old(State().Now())
      ensures l == old(l).Set(l.target) && r == old(r).Set(r.target) && on == old(on).Set(on.target)
    {
      var g := SendGains(taper, vol, false, pan);
      SetKeepsValid(l, g.l);
      SetKeepsValid(r, g.r);
      SetKeepsValid(on, if muted then 0.0 else 1.0);
      hide RampState.Set, RampState.Valid, SendGains, Product;
      l := l.Set(g.l);
      r := r.Set(g.r);
      on := on.Set(if muted then 0.0 else 1.0);
    }

    /** What `Tick` returns while no ramp moves; nothing while one does. */
    method Steady() returns (g: Option<Pair>)
      ensures g == if State().Moving() then None else Some(State().Now())
    {
      hide Product;
      if l.Moving() || r.Moving() || on.Moving() {
        return None;
      }
      g := Some(Pair(Product(l.value, on.value), Product(r.value, on.value)));
    }

    /** The gains of the next sample. */
    method Tick() returns (g: Pair)
      requires State().Valid()
      modifies this
      ensures State() == old(State()).Tick() && State().Valid()
      ensures g == State().Now()
    {
      TickKeepsValid(l);
      TickKeepsValid(r);
      TickKeepsValid(on);
      hide RampState.Tick, RampState.Valid, Product;
      on := on.Tick();
      l := l.Tick();
      r := r.Tick();
      g := Pair(Product(l.value, on.value), Product(r.value, on.value));
    }
  }
}
