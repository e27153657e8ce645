/**
The Audio EQ Cookbook's biquads, run in direct form I, and the proof that every band's
state-variable filter is one of them: the two produce the same output for every input.

Both sides are bilinear transforms of an analog prototype, so the proof goes through the
prototypes: a state-variable filter obeys its transform's difference equation sample for
sample, and each cookbook filter is its prototype's transform up to a common factor.
The equations are named functions and predicates, so that each proof sees only the
algebra it needs.
*/
module Rbj {
  import opened Reals
  import opened Svf
  import opened Designs

  datatype Biquad = Biquad(b0: real, b1: real, b2: real, a0: real, a1: real, a2: real) {
    /** The same filter with all coefficients in the ratio s : t. */
    ghost predicate Proportional(q: Biquad, s: real, t: real) {
      && Ratio(b0, q.b0, s, t) && Ratio(b1, q.b1, s, t) && Ratio(b2, q.b2, s, t)
      && Ratio(a0, q.a0, s, t) && Ratio(a1, q.a1, s, t) && Ratio(a2, q.a2, s, t)
    }
  }

  ghost predicate Ratio(x: real, y: real, s: real, t: real) {
    t * x == s * y
  }

  // ----- direct form I

  /** What a direct-form filter remembers: its last two inputs and outputs. */
  datatype Past = Past(x1: real, x2: real, y1: real, y2: real)

  const SILENT: Past := Past(0.0, 0.0, 0.0, 0.0)

  function Numerator(q: Biquad, p: Past, x: real): real {
    q.b0 * x + q.b1 * p.x1 + q.b2 * p.x2 - q.a1 * p.y1 - q.a2 * p.y2
  }

  function DirectForm(q: Biquad, p: Past, xs: seq<real>): seq<real>
    requires q.a0 != 0.0
    decreases |xs|
  {
    if xs == [] then []
    else
      var y := Numerator(q, p, xs[0]) / q.a0;
      [y] + DirectForm(q, Past(xs[0], p.x1, y, p.y1), xs[1..])
  }

  /** Only the ratios of a biquad's coefficients matter. */
  lemma {:induction false} RatiosDecide(q: Biquad, r: Biquad, s: real, t: real, p: Past, xs: seq<real>)
    requires q.Proportional(r, s, t) && s != 0.0 && t != 0.0 && q.a0 != 0.0 && r.a0 != 0.0
    ensures DirectForm(q, p, xs) == DirectForm(r, p, xs)
    decreases |xs|
  {
    if xs != [] {
      ScaledNumerator(q, r, s, t, p, xs[0]);
      SameQuotient(Numerator(q, p, xs[0]), q.a0, Numerator(r, p, xs[0]), r.a0, s, t);
      var y := Numerator(r, p, xs[0]) / r.a0;
      hide Numerator, Biquad.Proportional;
      RatiosDecide(q, r, s, t, Past(xs[0], p.x1, y, p.y1), xs[1..]);
    }
  }

  lemma ScaledNumerator(q: Biquad, r: Biquad, s: real, t: real, p: Past, x: real)
    requires q.Proportional(r, s, t)
    ensures Ratio(Numerator(q, p, x), Numerator(r, p, x), s, t)
  {
    hide Ratio, Product, Numerator;
    NumeratorIs(q, p, x);
    NumeratorIs(r, p, x);
    ScaledTerm(q.b0, r.b0, s, t, x);
    ScaledTerm(q.b1, r.b1, s, t, p.x1);
    ScaledTerm(q.b2, r.b2, s, t, p.x2);
    ScaledTerm(q.a1, r.a1, s, t, p.y1);
    ScaledTerm(q.a2, r.a2, s, t, p.y2);
    ScaledSum(s, t,
              Product(q.b0, x), Product(q.b1, p.x1), Product(q.b2, p.x2), Product(q.a1, p.y1), Product(q.a2, p.y2),
              Product(r.b0, x), Product(r.b1, p.x1), Product(r.b2, p.x2), Product(r.a1, p.y1), Product(r.a2, p.y2),
              Numerator(q, p, x), Numerator(r, p, x));
  }

  lemma NumeratorIs(q: Biquad, p: Past, x: real)
    ensures Numerator(q, p, x) ==
            Product(q.b0, x) + Product(q.b1, p.x1) + Product(q.b2, p.x2) - Product(q.a1, p.y1) - Product(q.a2, p.y2)
  {
  }

  lemma ScaledSum(s: real, t: real, a: real, b: real, c: real, d: real, e: real,
                  a': real, b': real, c': real, d': real, e': real, n: real, n': real)
    requires Ratio(a, a', s, t) && Ratio(b, b', s, t) && Ratio(c, c', s, t) && Ratio(d, d', s, t) && Ratio(e, e', s, t)
    requires n == a + b + c - d - e && n' == a' + b' + c' - d' - e'
    ensures Ratio(n, n', s, t)
  {
  }

  lemma ScaledTerm(a: real, b: real, s: real, t: real, x: real)
    requires Ratio(a, b, s, t)
    ensures Ratio(Product(a, x), Product(b, x), s, t)
  {
    assert t * (a * x) == (t * a) * x;
    assert s * (b * x) == (s * b) * x;
  }

  lemma Quotient(a: real, y: real)
    requires a != 0.0
    ensures (a * y) / a == y
  {
  }

  lemma SameQuotient(n: real, d: real, n': real, d': real, s: real, t: real)
    requires Ratio(n, n', s, t) && Ratio(d, d', s, t)
    requires d != 0.0 && d' != 0.0 && s != 0.0 && t != 0.0
    ensures n / d == n' / d'
  {
    var y := n' / d';
    assert n' == y * d';
    assert t * n == y * (s * d');
    assert t * n == t * (y * d);
    Quotient(t, n);
    Quotient(t, y * d);
    Quotient(d, y);
  }

  // ----- analog prototypes and the bilinear transform

  /** p·s² + q·s + r. */
  datatype Quadratic = Quadratic(p: real, q: real, r: real)

  /** The bilinear transform at g = tan(w/2). */
  function Digital(num: Quadratic, den: Quadratic, g: real): Biquad {
    Biquad(First(num, g), Middle(num, g), Last(num, g), First(den, g), Middle(den, g), Last(den, g))
  }

  function First(f: Quadratic, g: real): real { f.p + f.q * g + f.r * (g * g) }

  function Middle(f: Quadratic, g: real): real { 2.0 * (f.r * (g * g) - f.p) }

  function Last(f: Quadratic, g: real): real { f.p - f.q * g + f.r * (g * g) }

  // what a constant, a first-order and a second-order term make of three samples

  function Highs(x0: real, x1: real, x2: real): real { x2 - 2.0 * x1 + x0 }

  function Bands(g: real, x0: real, x2: real): real { g * (x2 - x0) }

  function Lows(g: real, x0: real, x1: real, x2: real): real { (g * g) * (x2 + 2.0 * x1 + x0) }

  /** A transformed polynomial over three samples, by its terms. */
  lemma Taps(f: Quadratic, g: real, x0: real, x1: real, x2: real)
    ensures First(f, g) * x2 + Middle(f, g) * x1 + Last(f, g) * x0 ==
            f.p * Highs(x0, x1, x2) + f.q * Bands(g, x0, x2) + f.r * Lows(g, x0, x1, x2)
  {
    var u, v := f.q * g, f.r * (g * g);
    FirstTimes(f.p, u, v, x2);
    FirstTimes(f.p, -u, v, x0);
    assert u * x2 - u * x0 == f.q * (g * (x2 - x0));
    assert v * x2 + 2.0 * (v * x1) + v * x0 == f.r * ((g * g) * (x2 + 2.0 * x1 + x0));
  }

  lemma FirstTimes(p: real, u: real, v: real, x: real)
    ensures (p + u + v) * x == p * x + u * x + v * x
  {
  }

  // ----- the state-variable filter

  /** The filter's output from state `s`. */
  function Response(c: Coefs, s: State, xs: seq<real>): seq<real>
    decreases |xs|
  {
    if xs == [] then [] else [Output(c, s, xs[0])] + Response(c, Next(c, s, xs[0]), xs[1..])
  }

  /** No state on the way is small enough to be flushed. */
  ghost predicate Unflushable(c: Coefs, s: State, xs: seq<real>)
    decreases |xs|
  {
    xs != [] ==>
      && Next(c, s, xs[0]) == Unflushed(c, s, xs[0])
      && Unflushable(c, Next(c, s, xs[0]), xs[1..])
  }

  function NumeratorOf(k: real, m0: real, m1: real, m2: real): Quadratic {
    Quadratic(m0, m0 * k + m1, m0 + m2)
  }

  function DenominatorOf(k: real): Quadratic {
    Quadratic(1.0, k, 1.0)
  }

  /** The biquad of any state-variable filter. */
  function OfFilter(c: Coefs): Biquad {
    Digital(NumeratorOf(c.k, c.m0, c.m1, c.m2), DenominatorOf(c.k), c.g)
  }

  /** The low-pass integrates the band-pass. */
  ghost predicate Integrates(g: real, v1: real, v2: real, w1: real, w2: real) {
    w2 == v2 + g * (v1 + w1)
  }

  /** The band-pass answers the input. */
  ghost predicate Answers(d: real, g: real, x: real, v1: real, v2: real, x': real, w1: real) {
    d * (w1 + v1) == 2.0 * v1 + g * (x' + x) - 2.0 * (g * v2)
  }

  lemma Neighbours(c: Coefs, s: State, x: real, x': real)
    requires c.Consistent()
    ensures var s' := Unflushed(c, s, x);
            var v1, v2, w1, w2 := BandPass(c, s, x), LowPass(c, s, x), BandPass(c, s', x'), LowPass(c, s', x');
            && Integrates(c.g, v1, v2, w1, w2)
            && Answers(Denominator(c.g, c.k), c.g, x, v1, v2, x', w1)
  {
    hide *;
    var s' := Unflushed(c, s, x);
    Trapezoid(c, s, x);
    Trapezoid(c, s', x');
    UnflushedIs(c, s, x);
    NeighbourAlgebra(Denominator(c.g, c.k), c.g, s.ic1, s.ic2, x, x', BandPass(c, s, x), LowPass(c, s, x),
                     BandPass(c, s', x'), LowPass(c, s', x'));
  }

  lemma NeighbourAlgebra(d: real, g: real, i1: real, i2: real, x: real, x': real, v1: real, v2: real, w1: real,
                         w2: real)
    requires v2 == i2 + g * v1 && d * v1 == i1 + g * (x - i2)
    requires w2 == (2.0 * v2 - i2) + g * w1 && d * w1 == (2.0 * v1 - i1) + g * (x' - (2.0 * v2 - i2))
    ensures Integrates(g, v1, v2, w1, w2) && Answers(d, g, x, v1, v2, x', w1)
  {
  }

  lemma UnflushedIs(c: Coefs, s: State, x: real)
    ensures Unflushed(c, s, x).ic1 == 2.0 * BandPass(c, s, x) - s.ic1
    ensures Unflushed(c, s, x).ic2 == 2.0 * LowPass(c, s, x) - s.ic2
  {
  }

  /** A value and the two before it, weighted by the transformed denominator. */
  function Weighted(k: real, g: real, w: real, v: real, u: real): real {
    First(DenominatorOf(k), g) * w + Middle(DenominatorOf(k), g) * v + Last(DenominatorOf(k), g) * u
  }

  lemma WeightedIs(k: real, g: real, w: real, v: real, u: real)
    ensures var d, gg := Denominator(g, k), g * g;
            Weighted(k, g, w, v, u) == d * w + 2.0 * (gg * v) - 2.0 * v + 2.0 * u + 2.0 * (gg * u) - d * u
  {
    assert First(DenominatorOf(k), g) == Denominator(g, k);
    assert Last(DenominatorOf(k), g) == 2.0 + 2.0 * (g * g) - Denominator(g, k);
  }

  /** The band-pass obeys the filter's recurrence. */
  lemma BandRecurrence(k: real, g: real, x0: real, x1: real, x2: real,
                       u1: real, u2: real, v1: real, v2: real, w1: real)
    requires var d := Denominator(g, k); Answers(d, g, x0, u1, u2, x1, v1) && Answers(d, g, x1, v1, v2, x2, w1)
    requires Integrates(g, u1, u2, v1, v2)
    ensures Weighted(k, g, w1, v1, u1) == Bands(g, x0, x2)
  {
    WeightedIs(k, g, w1, v1, u1);
    hide Weighted, Denominator;
    var gg := g * g;
    assert g * v2 == g * u2 + gg * u1 + gg * v1 by {
      assert g * (g * (u1 + v1)) == gg * u1 + gg * v1;
    }
  }

  /** The answer, times g. */
  ghost predicate Lifted(d: real, g: real, x: real, v1: real, v2: real, x': real, w1: real) {
    d * (g * (v1 + w1)) == 2.0 * (g * v1) + (g * g) * (x' + x) - 2.0 * ((g * g) * v2)
  }

  lemma Lift(d: real, g: real, x: real, v1: real, v2: real, x': real, w1: real)
    requires Answers(d, g, x, v1, v2, x', w1)
    ensures Lifted(d, g, x, v1, v2, x', w1)
  {
    assert d * (g * (v1 + w1)) == g * (d * (w1 + v1));
    assert g * (2.0 * v1 + g * (x' + x) - 2.0 * (g * v2)) ==
           2.0 * (g * v1) + g * (g * (x' + x)) - 2.0 * (g * (g * v2));
  }

  function LowSteps(d: real, g: real, u1: real, u2: real, v1: real, v2: real, w1: real): real {
    d * (g * (u1 + v1)) + d * (g * (v1 + w1)) + 2.0 * ((g * g) * u2) + 2.0 * ((g * g) * v2) - 2.0 * (g * (u1 + v1))
  }

  lemma Collect(k: real, g: real, u1: real, u2: real, v1: real, v2: real, w1: real, w2: real)
    requires Integrates(g, u1, u2, v1, v2) && Integrates(g, v1, v2, w1, w2)
    ensures Weighted(k, g, w2, v2, u2) == LowSteps(Denominator(g, k), g, u1, u2, v1, v2, w1)
  {
    WeightedIs(k, g, w2, v2, u2);
    hide Weighted, Denominator;
    var d, p, r := Denominator(g, k), g * (u1 + v1), g * (v1 + w1);
    assert d * w2 == d * u2 + d * p + d * r;
  }

  lemma LowSum(d: real, g: real, x0: real, x1: real, x2: real, u1: real, u2: real, v1: real, v2: real, w1: real)
    requires Lifted(d, g, x0, u1, u2, x1, v1) && Lifted(d, g, x1, v1, v2, x2, w1)
    ensures LowSteps(d, g, u1, u2, v1, v2, w1) == Lows(g, x0, x1, x2)
  {
    var gg := g * g;
    assert g * (u1 + v1) == g * u1 + g * v1;
    assert gg * (x1 + x0) + gg * (x2 + x1) == gg * (x2 + 2.0 * x1 + x0);
    LowSumOf(d * (g * (u1 + v1)), d * (g * (v1 + w1)), g * u1, g * v1, gg * u2, gg * v2, gg * (x1 + x0), gg * (x2 + x1),
             g * (u1 + v1));
  }

  lemma LowSumOf(p: real, q: real, gu: real, gv: real, a: real, b: real, x: real, y: real, uv: real)
    requires p == 2.0 * gu + x - 2.0 * a && q == 2.0 * gv + y - 2.0 * b && uv == gu + gv
    ensures p + q + 2.0 * a + 2.0 * b - 2.0 * uv == x + y
  {
  }

  /** And so does the low-pass. */
  lemma LowRecurrence(k: real, g: real, x0: real, x1: real, x2: real,
                      u1: real, u2: real, v1: real, v2: real, w1: real, w2: real)
    requires var d := Denominator(g, k); Answers(d, g, x0, u1, u2, x1, v1) && Answers(d, g, x1, v1, v2, x2, w1)
    requires Integrates(g, u1, u2, v1, v2) && Integrates(g, v1, v2, w1, w2)
    ensures Weighted(k, g, w2, v2, u2) == Lows(g, x0, x1, x2)
  {
    hide *;
    var d := Denominator(g, k);
    Lift(d, g, x0, u1, u2, x1, v1);
    Lift(d, g, x1, v1, v2, x2, w1);
    Collect(k, g, u1, u2, v1, v2, w1, w2);
    LowSum(d, g, x0, x1, x2, u1, u2, v1, v2, w1);
  }

  function Mixed(c: Coefs, x: real, band: real, low: real): real {
    c.m0 * x + c.m1 * band + c.m2 * low
  }

  lemma MixedWeights(c: Coefs, x0: real, x1: real, x2: real,
                     u1: real, u2: real, v1: real, v2: real, w1: real, w2: real)
    ensures Weighted(c.k, c.g, Mixed(c, x2, w1, w2), Mixed(c, x1, v1, v2), Mixed(c, x0, u1, u2)) ==
            c.m0 * Weighted(c.k, c.g, x2, x1, x0) + c.m1 * Weighted(c.k, c.g, w1, v1, u1)
            + c.m2 * Weighted(c.k, c.g, w2, v2, u2)
  {
    hide First, Middle, Last;
    var f := DenominatorOf(c.k);
    Spread(First(f, c.g), c, x2, w1, w2);
    Spread(Middle(f, c.g), c, x1, v1, v2);
    Spread(Last(f, c.g), c, x0, u1, u2);
    hide Mixed;
  }

  lemma Spread(a: real, c: Coefs, x: real, band: real, low: real)
    ensures a * Mixed(c, x, band, low) == c.m0 * (a * x) + c.m1 * (a * band) + c.m2 * (a * low)
  {
  }

  function InputTaps(q: Biquad, x0: real, x1: real, x2: real): real {
    q.b0 * x2 + q.b1 * x1 + q.b2 * x0
  }

  /** The numerator is the mix of the direct, the band-pass and the low-pass parts. */
  lemma NumeratorMix(c: Coefs, x0: real, x1: real, x2: real)
    ensures InputTaps(OfFilter(c), x0, x1, x2) ==
            c.m0 * Weighted(c.k, c.g, x2, x1, x0) + c.m1 * Bands(c.g, x0, x2) + c.m2 * Lows(c.g, x0, x1, x2)
  {
    hide First, Middle, Last, Highs, Bands, Lows;
    Taps(NumeratorOf(c.k, c.m0, c.m1, c.m2), c.g, x0, x1, x2);
    Taps(DenominatorOf(c.k), c.g, x0, x1, x2);
    MixTerms(c, Highs(x0, x1, x2), Bands(c.g, x0, x2), Lows(c.g, x0, x1, x2));
  }

  lemma MixTerms(c: Coefs, h: real, b: real, l: real)
    ensures c.m0 * h + (c.m0 * c.k + c.m1) * b + (c.m0 + c.m2) * l ==
            c.m0 * (1.0 * h + c.k * b + 1.0 * l) + c.m1 * b + c.m2 * l
  {
  }

  lemma OutputIsMixed(c: Coefs, s: State, x: real)
    ensures Output(c, s, x) == Mixed(c, x, BandPass(c, s, x), LowPass(c, s, x))
  {
  }

  lemma WeightedIsNumerator(c: Coefs, x0: real, x1: real, x2: real, y0: real, y1: real, y2: real)
    requires Weighted(c.k, c.g, y2, y1, y0) == InputTaps(OfFilter(c), x0, x1, x2)
    ensures OfFilter(c).a0 * y2 == Numerator(OfFilter(c), Past(x1, x0, y1, y0), x2)
  {
    hide First, Middle, Last;
  }

  /** Any three samples in a row satisfy the filter's difference equation. */
  lemma ThreeTaps(c: Coefs, s: State, x0: real, x1: real, x2: real)
    requires c.Consistent()
    ensures var s1 := Unflushed(c, s, x0);
            var s2 := Unflushed(c, s1, x1);
            var q := OfFilter(c);
            q.a0 * Output(c, s2, x2) ==
            Numerator(q, Past(x1, x0, Output(c, s1, x1), Output(c, s, x0)), x2)
  {
    hide *;
    var s1 := Unflushed(c, s, x0);
    var s2 := Unflushed(c, s1, x1);
    Neighbours(c, s, x0, x1);
    Neighbours(c, s1, x1, x2);
    var u1, u2 := BandPass(c, s, x0), LowPass(c, s, x0);
    var v1, v2 := BandPass(c, s1, x1), LowPass(c, s1, x1);
    var w1, w2 := BandPass(c, s2, x2), LowPass(c, s2, x2);
    BandRecurrence(c.k, c.g, x0, x1, x2, u1, u2, v1, v2, w1);
    LowRecurrence(c.k, c.g, x0, x1, x2, u1, u2, v1, v2, w1, w2);
    MixedWeights(c, x0, x1, x2, u1, u2, v1, v2, w1, w2);
    NumeratorMix(c, x0, x1, x2);
    OutputIsMixed(c, s, x0);
    OutputIsMixed(c, s1, x1);
    OutputIsMixed(c, s2, x2);
    WeightedIsNumerator(c, x0, x1, x2, Output(c, s, x0), Output(c, s1, x1), Output(c, s2, x2));
  }

  /** Continued from any two samples of the filter's own past, the direct form gives the
      state-variable filter's output sample for sample. */
  lemma {:induction false} ContinuesAs(c: Coefs, s: State, x0: real, x1: real, xs: seq<real>)
    requires c.Consistent() && OfFilter(c).a0 != 0.0
    requires var s1 := Unflushed(c, s, x0); Unflushable(c, Unflushed(c, s1, x1), xs)
    ensures var s1 := Unflushed(c, s, x0);
            Response(c, Unflushed(c, s1, x1), xs) ==
            DirectForm(OfFilter(c), Past(x1, x0, Output(c, s1, x1), Output(c, s, x0)), xs)
    decreases |xs|
  {
    if xs != [] {
      var s1 := Unflushed(c, s, x0);
      var y := Output(c, Unflushed(c, s1, x1), xs[0]);
      ThreeTaps(c, s, x0, x1, xs[0]);
      Quotient(OfFilter(c).a0, y);
      hide Unflushed, Output, Next, OfFilter, Numerator, Coefs.Consistent;
      assert Numerator(OfFilter(c), Past(x1, x0, Output(c, s1, x1), Output(c, s, x0)), xs[0]) / OfFilter(c).a0 == y;
      ContinuesAs(c, s1, x1, xs[0], xs[1..]);
    }
  }

  lemma RestStaysAtRest(c: Coefs)
    ensures Unflushed(c, ZERO, 0.0) == ZERO && Output(c, ZERO, 0.0) == 0.0
  {
  }

  lemma FilterA0(c: Coefs)
    requires c.Passive()
    ensures OfFilter(c).a0 != 0.0
  {
    DenominatorPositive(c.g, c.k);
    assert OfFilter(c).a0 == Denominator(c.g, c.k);
  }

  /** From rest, the filter and its biquad agree on every input. */
  lemma FilterIsBiquad(c: Coefs, xs: seq<real>)
    requires c.Passive() && Unflushable(c, ZERO, xs)
    ensures OfFilter(c).a0 != 0.0
    ensures Response(c, ZERO, xs) == DirectForm(OfFilter(c), SILENT, xs)
  {
    FilterA0(c);
    RestStaysAtRest(c);
    hide Unflushed, Output, OfFilter, Denominator;
    ContinuesAs(c, ZERO, 0.0, 0.0, xs);
  }

  // ----- the transform as the cookbook writes it

  /** The bilinear transform in the cosine `c` and sine `sn` of w. */
  function Trig(num: Quadratic, den: Quadratic, c: real, sn: real): Biquad {
    Biquad(TrigFirst(num, c, sn), TrigMiddle(num, c), TrigLast(num, c, sn),
           TrigFirst(den, c, sn), TrigMiddle(den, c), TrigLast(den, c, sn))
  }

  function TrigFirst(f: Quadratic, c: real, sn: real): real { (f.p + f.r) + (f.p - f.r) * c + f.q * sn }

  function TrigMiddle(f: Quadratic, c: real): real { 2.0 * ((f.r - f.p) - (f.r + f.p) * c) }

  function TrigLast(f: Quadratic, c: real, sn: real): real { (f.p + f.r) + (f.p - f.r) * c - f.q * sn }

  /** `g` is the tangent of half the angle whose cosine and sine are `c` and `sn`. */
  ghost predicate HalfTangent(g: real, c: real, sn: real) {
    c * Scale(g) == 1.0 - g * g && sn * Scale(g) == 2.0 * g
  }

  function Scale(g: real): real {
    1.0 + g * g
  }

  lemma TrigTaps(f: Quadratic, g: real, c: real, sn: real)
    requires HalfTangent(g, c, sn)
    ensures Ratio(First(f, g), TrigFirst(f, c, sn), Scale(g), 2.0)
    ensures Ratio(Middle(f, g), TrigMiddle(f, c), Scale(g), 2.0)
    ensures Ratio(Last(f, g), TrigLast(f, c, sn), Scale(g), 2.0)
  {
    var s, gg := Scale(g), g * g;
    Rescale(f.p - f.r, c, s, 1.0 - gg);
    Rescale(f.r + f.p, c, s, 1.0 - gg);
    Rescale(f.q, sn, s, 2.0 * g);
  }

  lemma Rescale(x: real, c: real, s: real, cs: real)
    requires c * s == cs
    ensures s * (x * c) == x * cs
  {
    assert s * (x * c) == x * (c * s);
  }

  lemma DigitalIsTrig(num: Quadratic, den: Quadratic, g: real, c: real, sn: real)
    requires HalfTangent(g, c, sn)
    ensures Digital(num, den, g).Proportional(Trig(num, den, c, sn), Scale(g), 2.0)
  {
    hide HalfTangent, Ratio, First, Middle, Last, TrigFirst, TrigMiddle, TrigLast, Scale;
    TrigTaps(num, g, c, sn);
    TrigTaps(den, g, c, sn);
  }

  // ----- moving a prototype to another g

  function Down(f: Quadratic, r: real, a: real): Quadratic { Quadratic(a * f.p, f.q * r, f.r) }

  function Up(f: Quadratic, r: real, a: real): Quadratic { Quadratic(f.p, f.q * r, f.r * a) }

  lemma DownTaps(f: Quadratic, gs: real, r: real, g: real, a: real)
    requires g == gs * r && a == r * r
    ensures Ratio(First(f, gs), First(Down(f, r, a), g), 1.0, a)
    ensures Ratio(Middle(f, gs), Middle(Down(f, r, a), g), 1.0, a)
    ensures Ratio(Last(f, gs), Last(Down(f, r, a), g), 1.0, a)
  {
    DownTap(f.q, gs, r, g, a);
    DownSquare(f.r, gs, r, g, a);
    var q, s, p := f.q * gs, f.r * (gs * gs), f.p;
    assert a * (p + q + s) == a * p + a * q + a * s;
    assert a * (p - q + s) == a * p - a * q + a * s;
    assert a * (2.0 * (s - p)) == 2.0 * (a * s - a * p);
  }

  lemma DownTap(q: real, gs: real, r: real, g: real, a: real)
    requires g == gs * r && a == r * r
    ensures q * r * g == a * (q * gs)
  {
  }

  lemma DownSquare(s: real, gs: real, r: real, g: real, a: real)
    requires g == gs * r && a == r * r
    ensures s * (g * g) == a * (s * (gs * gs))
  {
  }

  lemma UpTaps(f: Quadratic, gs: real, r: real, g: real, a: real)
    requires gs == g * r && a == r * r
    ensures Ratio(First(f, gs), First(Up(f, r, a), g), 1.0, 1.0)
    ensures Ratio(Middle(f, gs), Middle(Up(f, r, a), g), 1.0, 1.0)
    ensures Ratio(Last(f, gs), Last(Up(f, r, a), g), 1.0, 1.0)
  {
    assert f.q * r * g == f.q * gs;
    assert f.r * a * (g * g) == f.r * (gs * gs);
  }

  lemma DownFilter(num: Quadratic, den: Quadratic, gs: real, r: real, g: real, a: real)
    requires g == gs * r && a == r * r
    ensures Digital(num, den, gs).Proportional(Digital(Down(num, r, a), Down(den, r, a), g), 1.0, a)
  {
    hide Ratio, First, Middle, Last, Down;
    DownTaps(num, gs, r, g, a);
    DownTaps(den, gs, r, g, a);
  }

  lemma UpFilter(num: Quadratic, den: Quadratic, gs: real, r: real, g: real, a: real)
    requires gs == g * r && a == r * r
    ensures Digital(num, den, gs).Proportional(Digital(Up(num, r, a), Up(den, r, a), g), 1.0, 1.0)
  {
    hide Ratio, First, Middle, Last, Up;
    UpTaps(num, gs, r, g, a);
    UpTaps(den, gs, r, g, a);
  }

  // ----- the cookbook

  function CookbookHighPass(c: real, al: real): Biquad {
    Biquad((1.0 + c) / 2.0, -(1.0 + c), (1.0 + c) / 2.0, 1.0 + al, -2.0 * c, 1.0 - al)
  }

  function CookbookNotch(c: real, al: real): Biquad {
    Biquad(1.0, -2.0 * c, 1.0, 1.0 + al, -2.0 * c, 1.0 - al)
  }

  function CookbookPeak(c: real, al: real, a: real): Biquad
    requires a != 0.0
  {
    Biquad(1.0 + al * a, -2.0 * c, 1.0 - al * a, 1.0 + al / a, -2.0 * c, 1.0 - al / a)
  }

  /** `r` is 2·√A·α. */
  function CookbookLowShelf(c: real, a: real, r: real): Biquad {
    Biquad(a * ((a + 1.0) - (a - 1.0) * c + r), 2.0 * a * ((a - 1.0) - (a + 1.0) * c),
           a * ((a + 1.0) - (a - 1.0) * c - r),
           (a + 1.0) + (a - 1.0) * c + r, -2.0 * ((a - 1.0) + (a + 1.0) * c), (a + 1.0) + (a - 1.0) * c - r)
  }

  function CookbookHighShelf(c: real, a: real, r: real): Biquad {
    Biquad(a * ((a + 1.0) + (a - 1.0) * c + r), -2.0 * a * ((a - 1.0) + (a + 1.0) * c),
           a * ((a + 1.0) + (a - 1.0) * c - r),
           (a + 1.0) - (a - 1.0) * c + r, 2.0 * ((a - 1.0) - (a + 1.0) * c), (a + 1.0) - (a - 1.0) * c - r)
  }

  // each is its prototype's transform, up to a factor

  lemma HighPassPrototype(c: real, sn: real, q: real, al: real)
    requires al == sn * q / 2.0
    ensures Trig(Quadratic(1.0, 0.0, 0.0), Quadratic(1.0, q, 1.0), c, sn)
            .Proportional(CookbookHighPass(c, al), 2.0, 1.0)
  {
  }

  lemma NotchPrototype(c: real, sn: real, q: real, al: real)
    requires al == sn * q / 2.0
    ensures Trig(Quadratic(1.0, 0.0, 1.0), Quadratic(1.0, q, 1.0), c, sn)
            .Proportional(CookbookNotch(c, al), 2.0, 1.0)
  {
  }

  lemma PeakPrototype(c: real, sn: real, q: real, al: real, a: real, k: real)
    requires al == sn * q / 2.0 && a > 0.0 && k * a == q
    ensures Trig(Quadratic(1.0, q * a, 1.0), Quadratic(1.0, k, 1.0), c, sn)
            .Proportional(CookbookPeak(c, al, a), 2.0, 1.0)
  {
    PeakAlpha(sn, q, a, k);
  }

  lemma PeakAlpha(sn: real, q: real, a: real, k: real)
    requires a > 0.0 && k * a == q
    ensures (sn * q / 2.0) / a == sn * k / 2.0
  {
    Quotient(a, sn * k / 2.0);
    assert a * (sn * k / 2.0) == sn * (k * a) / 2.0;
  }

  lemma LowShelfPrototype(c: real, sn: real, q: real, qs: real, a: real)
    requires qs == q * sn
    ensures Trig(Quadratic(a, a * q, a * a), Quadratic(a, q, 1.0), c, sn)
            .Proportional(CookbookLowShelf(c, a, qs), 1.0, 1.0)
  {
    hide Ratio, TrigFirst, TrigMiddle, TrigLast, CookbookLowShelf;
    LowShelfOuter(c, sn, q, qs, a);
    LowShelfMiddle(c, sn, q, qs, a);
    LowShelfDenominator(c, sn, q, qs, a);
  }

  lemma LowShelfOuter(c: real, sn: real, q: real, qs: real, a: real)
    requires qs == q * sn
    ensures var f, k := Quadratic(a, a * q, a * a), CookbookLowShelf(c, a, qs);
            Ratio(TrigFirst(f, c, sn), k.b0, 1.0, 1.0) && Ratio(TrigLast(f, c, sn), k.b2, 1.0, 1.0)
  {
    ShelfSum(a, c, q, sn);
    ShelfSum(a, c, -q, sn);
  }

  lemma LowShelfMiddle(c: real, sn: real, q: real, qs: real, a: real)
    requires qs == q * sn
    ensures Ratio(TrigMiddle(Quadratic(a, a * q, a * a), c), CookbookLowShelf(c, a, qs).b1, 1.0, 1.0)
  {
    ShelfMiddleSum(a, c);
  }

  lemma LowShelfDenominator(c: real, sn: real, q: real, qs: real, a: real)
    requires qs == q * sn
    ensures var f, k := Quadratic(a, q, 1.0), CookbookLowShelf(c, a, qs);
            && Ratio(TrigFirst(f, c, sn), k.a0, 1.0, 1.0) && Ratio(TrigMiddle(f, c), k.a1, 1.0, 1.0)
            && Ratio(TrigLast(f, c, sn), k.a2, 1.0, 1.0)
  {
  }

  lemma HighShelfPrototype(c: real, sn: real, q: real, qs: real, a: real)
    requires qs == q * sn
    ensures Trig(Quadratic(a * a, a * q, a), Quadratic(1.0, q, a), c, sn)
            .Proportional(CookbookHighShelf(c, a, qs), 1.0, 1.0)
  {
    hide Ratio, TrigFirst, TrigMiddle, TrigLast, CookbookHighShelf;
    HighShelfOuter(c, sn, q, qs, a);
    HighShelfMiddle(c, sn, q, qs, a);
    HighShelfDenominator(c, sn, q, qs, a);
  }

  lemma HighShelfOuter(c: real, sn: real, q: real, qs: real, a: real)
    requires qs == q * sn
    ensures var f, k := Quadratic(a * a, a * q, a), CookbookHighShelf(c, a, qs);
            Ratio(TrigFirst(f, c, sn), k.b0, 1.0, 1.0) && Ratio(TrigLast(f, c, sn), k.b2, 1.0, 1.0)
  {
    ShelfSum(a, c, q, sn);
    ShelfSum(a, c, -q, sn);
  }

  lemma HighShelfMiddle(c: real, sn: real, q: real, qs: real, a: real)
    requires qs == q * sn
    ensures Ratio(TrigMiddle(Quadratic(a * a, a * q, a), c), CookbookHighShelf(c, a, qs).b1, 1.0, 1.0)
  {
    ShelfMiddleSum(a, c);
  }

  lemma HighShelfDenominator(c: real, sn: real, q: real, qs: real, a: real)
    requires qs == q * sn
    ensures var f, k := Quadratic(1.0, q, a), CookbookHighShelf(c, a, qs);
            && Ratio(TrigFirst(f, c, sn), k.a0, 1.0, 1.0) && Ratio(TrigMiddle(f, c), k.a1, 1.0, 1.0)
            && Ratio(TrigLast(f, c, sn), k.a2, 1.0, 1.0)
  {
  }

  lemma ShelfSum(a: real, c: real, q: real, sn: real)
    ensures a * ((a + 1.0) - (a - 1.0) * c + q * sn) == (a + a * a) + (a - a * a) * c + a * q * sn
    ensures a * ((a + 1.0) + (a - 1.0) * c + q * sn) == (a * a + a) + (a * a - a) * c + a * q * sn
  {
  }

  lemma ShelfMiddleSum(a: real, c: real)
    ensures a * ((a - 1.0) - (a + 1.0) * c) == (a * a - a) - (a * a + a) * c
    ensures a * ((a - 1.0) + (a + 1.0) * c) == (a * a - a) + (a * a + a) * c
  {
  }

  // ----- the designed bands

  /** One link of a chain of filters with equal outputs. */
  lemma Link(q: Biquad, r: Biquad, s: real, t: real, xs: seq<real>)
    requires q.Proportional(r, s, t) && s != 0.0 && t != 0.0 && q.a0 != 0.0
    ensures r.a0 != 0.0 && DirectForm(q, SILENT, xs) == DirectForm(r, SILENT, xs)
  {
    RatioNonZero(q.a0, r.a0, s, t);
    hide Ratio;
    RatiosDecide(q, r, s, t, SILENT, xs);
  }

  lemma RatioNonZero(x: real, y: real, s: real, t: real)
    requires Ratio(x, y, s, t) && t != 0.0 && x != 0.0
    ensures y != 0.0
  {
    NonZeroProduct(t, x);
  }

  lemma NonZeroProduct(a: real, b: real)
    requires a != 0.0 && b != 0.0
    ensures a * b != 0.0
  {
  }

  lemma ScalePositive(g: real)
    ensures Scale(g) >= 1.0
  {
  }

  /** From a prototype's transform at g, through its trigonometric form, to the cookbook. */
  lemma ToCookbook(num: Quadratic, den: Quadratic, g: real, c: real, sn: real, k: Biquad, s: real, xs: seq<real>)
    requires HalfTangent(g, c, sn) && s != 0.0
    requires Digital(num, den, g).a0 != 0.0
    requires Trig(num, den, c, sn).Proportional(k, s, 1.0)
    ensures k.a0 != 0.0 && DirectForm(Digital(num, den, g), SILENT, xs) == DirectForm(k, SILENT, xs)
  {
    hide HalfTangent, Scale, Digital, Trig, Biquad.Proportional;
    DigitalIsTrig(num, den, g, c, sn);
    ScalePositive(g);
    Link(Digital(num, den, g), Trig(num, den, c, sn), Scale(g), 2.0, xs);
    Link(Trig(num, den, c, sn), k, s, 1.0, xs);
  }

  lemma HighPassBand(g: real, q: real, al: real, c: real, sn: real, xs: seq<real>)
    requires al == sn * q / 2.0 && g > 0.0 && q >= 0.0 && HalfTangent(g, c, sn)
    requires Unflushable(DesignHighPass(g, q), ZERO, xs)
    ensures var k := CookbookHighPass(c, al);
            k.a0 != 0.0 && Response(DesignHighPass(g, q), ZERO, xs) == DirectForm(k, SILENT, xs)
  {
    assert NumeratorOf(q, 1.0, -q, -1.0) == Quadratic(1.0, 0.0, 0.0);
    FilterIsBiquad(DesignHighPass(g, q), xs);
    HighPassPrototype(c, sn, q, al);
    hide Digital, Trig, CookbookHighPass, HalfTangent, Unflushable, Biquad.Proportional, Coefs.Passive;
    ToCookbook(Quadratic(1.0, 0.0, 0.0), Quadratic(1.0, q, 1.0), g, c, sn, CookbookHighPass(c, al), 2.0, xs);
  }

  lemma NotchBand(g: real, q: real, al: real, c: real, sn: real, xs: seq<real>)
    requires al == sn * q / 2.0 && g > 0.0 && q >= 0.0 && HalfTangent(g, c, sn)
    requires Unflushable(DesignNotch(g, q), ZERO, xs)
    ensures var k := CookbookNotch(c, al);
            k.a0 != 0.0 && Response(DesignNotch(g, q), ZERO, xs) == DirectForm(k, SILENT, xs)
  {
    assert NumeratorOf(q, 1.0, -q, 0.0) == Quadratic(1.0, 0.0, 1.0);
    FilterIsBiquad(DesignNotch(g, q), xs);
    NotchPrototype(c, sn, q, al);
    hide Digital, Trig, CookbookNotch, HalfTangent, Unflushable, Biquad.Proportional, Coefs.Passive;
    ToCookbook(Quadratic(1.0, 0.0, 1.0), Quadratic(1.0, q, 1.0), g, c, sn, CookbookNotch(c, al), 2.0, xs);
  }

  lemma PeakBand(g: real, q: real, a: real, al: real, c: real, sn: real, xs: seq<real>)
    requires al == sn * q / 2.0 && g > 0.0 && q >= 0.0 && a > 0.0 && HalfTangent(g, c, sn)
    requires Unflushable(DesignPeak(g, q, a), ZERO, xs)
    ensures var k := CookbookPeak(c, al, a);
            k.a0 != 0.0 && Response(DesignPeak(g, q, a), ZERO, xs) == DirectForm(k, SILENT, xs)
  {
    hide *;
    var num, den := Quadratic(1.0, q * a, 1.0), Quadratic(1.0, q / a, 1.0);
    FilterIsBiquad(DesignPeak(g, q, a), xs);
    PeakOf(g, q, a);
    PeakPrototype(c, sn, q, al, a, q / a);
    ToCookbook(num, den, g, c, sn, CookbookPeak(c, al, a), 2.0, xs);
  }

  lemma PeakOf(g: real, q: real, a: real)
    requires g > 0.0 && q >= 0.0 && a > 0.0
    ensures q / a * a == q
    ensures OfFilter(DesignPeak(g, q, a)) == Digital(Quadratic(1.0, q * a, 1.0), Quadratic(1.0, q / a, 1.0), g)
  {
    PeakNumerator(q, a, q / a);
    hide Digital, Coefs.Passive;
  }

  lemma PeakNumerator(q: real, a: real, k: real)
    requires k * a == q
    ensures NumeratorOf(k, 1.0, k * (a * a - 1.0), 0.0) == Quadratic(1.0, q * a, 1.0)
  {
    assert k * (a * a) == q * a;
  }

  lemma LowShelfBand(g: real, k: real, a: real, r: real, q: real, qs: real, c: real, sn: real, xs: seq<real>)
    requires qs == q * sn && g > 0.0 && k >= 0.0 && a > 0.0 && r > 0.0 && a == r * r && q == k * r
             && HalfTangent(g, c, sn)
    requires Unflushable(DesignLowShelf(g, k, a, r), ZERO, xs)
    ensures var b := CookbookLowShelf(c, a, qs);
            b.a0 != 0.0 && Response(DesignLowShelf(g, k, a, r), ZERO, xs) == DirectForm(b, SILENT, xs)
  {
    hide *;
    var num, den := Quadratic(a, a * q, a * a), Quadratic(a, q, 1.0);
    FilterIsBiquad(DesignLowShelf(g, k, a, r), xs);
    LowShelfOf(g, k, a, r, q);
    Link(OfFilter(DesignLowShelf(g, k, a, r)), Digital(num, den, g), 1.0, a, xs);
    LowShelfPrototype(c, sn, q, qs, a);
    ToCookbook(num, den, g, c, sn, CookbookLowShelf(c, a, qs), 1.0, xs);
  }

  lemma LowShelfOf(g: real, k: real, a: real, r: real, q: real)
    requires g > 0.0 && k >= 0.0 && r > 0.0 && a == r * r && q == k * r
    ensures OfFilter(DesignLowShelf(g, k, a, r))
            .Proportional(Digital(Quadratic(a, a * q, a * a), Quadratic(a, q, 1.0), g), 1.0, a)
  {
    hide *;
    var gs, m1, m2 := g / r, k * (a - 1.0), a * a - 1.0;
    DivideBack(g, r);
    LowShelfDown(k, a, r, q);
    LowShelfIs(g, k, a, r, gs, m1, m2);
    DownFilter(NumeratorOf(k, 1.0, m1, m2), DenominatorOf(k), gs, r, g, a);
  }

  lemma LowShelfIs(g: real, k: real, a: real, r: real, gs: real, m1: real, m2: real)
    requires g > 0.0 && k >= 0.0 && r > 0.0 && gs == g / r && m1 == k * (a - 1.0) && m2 == a * a - 1.0
    ensures OfFilter(DesignLowShelf(g, k, a, r)) == Digital(NumeratorOf(k, 1.0, m1, m2), DenominatorOf(k), gs)
  {
    hide Digital, NumeratorOf, DenominatorOf, Coefs.Passive;
  }

  lemma DivideBack(g: real, r: real)
    requires r != 0.0
    ensures g / r * r == g
  {
  }

  lemma LowShelfDown(k: real, a: real, r: real, q: real)
    requires q == k * r
    ensures Down(NumeratorOf(k, 1.0, k * (a - 1.0), a * a - 1.0), r, a) == Quadratic(a, a * q, a * a)
    ensures Down(DenominatorOf(k), r, a) == Quadratic(a, q, 1.0)
  {
    assert (k + k * (a - 1.0)) * r == a * q;
  }

  lemma HighShelfBand(g: real, k: real, a: real, r: real, q: real, qs: real, c: real, sn: real, xs: seq<real>)
    requires qs == q * sn && g > 0.0 && k >= 0.0 && a > 0.0 && r > 0.0 && a == r * r && q == k * r
             && HalfTangent(g, c, sn)
    requires Unflushable(DesignHighShelf(g, k, a, r), ZERO, xs)
    ensures var b := CookbookHighShelf(c, a, qs);
            b.a0 != 0.0 && Response(DesignHighShelf(g, k, a, r), ZERO, xs) == DirectForm(b, SILENT, xs)
  {
    hide *;
    var num, den := Quadratic(a * a, a * q, a), Quadratic(1.0, q, a);
    FilterIsBiquad(DesignHighShelf(g, k, a, r), xs);
    HighShelfOf(g, k, a, r, q);
    Link(OfFilter(DesignHighShelf(g, k, a, r)), Digital(num, den, g), 1.0, 1.0, xs);
    HighShelfPrototype(c, sn, q, qs, a);
    ToCookbook(num, den, g, c, sn, CookbookHighShelf(c, a, qs), 1.0, xs);
  }

  lemma HighShelfOf(g: real, k: real, a: real, r: real, q: real)
    requires g > 0.0 && k >= 0.0 && r > 0.0 && a == r * r && q == k * r
    ensures OfFilter(DesignHighShelf(g, k, a, r))
            .Proportional(Digital(Quadratic(a * a, a * q, a), Quadratic(1.0, q, a), g), 1.0, 1.0)
  {
    HighShelfUp(k, a, r, q);
    hide Biquad.Proportional, Digital, NumeratorOf, DenominatorOf, Up, Coefs.Passive;
    UpFilter(NumeratorOf(k, a * a, k * (1.0 - a) * a, 1.0 - a * a), DenominatorOf(k), g * r, r, g, a);
  }

  lemma HighShelfUp(k: real, a: real, r: real, q: real)
    requires q == k * r
    ensures Up(NumeratorOf(k, a * a, k * (1.0 - a) * a, 1.0 - a * a), r, a) == Quadratic(a * a, a * q, a)
    ensures Up(DenominatorOf(k), r, a) == Quadratic(1.0, q, a)
  {
    assert (a * a) * k + k * (1.0 - a) * a == a * k;
    assert (a * k) * r == a * q;
  }

  // ----- the Note's filters, written from a band's settings alone

  /** The frequency a band sits at: its own from 20 Hz to 24 kHz and up to 0.49 of the rate,
      and the nearest end of that range outside it. */
  function SetFreq(freqHz: real, fs: real): (f: real)
    requires fs > 0.0
    ensures 0.0 < f <= 0.49 * fs
  {
    if 20.0 <= freqHz <= 24000.0 && freqHz <= 0.49 * fs then freqHz
    else if freqHz < 20.0 <= 0.49 * fs then 20.0
    else if freqHz > 24000.0 && 24000.0 <= 0.49 * fs then 24000.0
    else 0.49 * fs
  }

  /** 2π·f/fs. */
  function SetAngle(m: Maths, b: Band, fs: real): real
    requires fs > 0.0
  {
    2.0 * m.pi * SetFreq(b.freqHz, fs) / fs
  }

  /** The bandwidth in octaves, from 0.01 to 4. */
  function SetOctaves(bwOct: real): (bw: real)
    ensures 0.01 <= bw <= 4.0
  {
    if bwOct < 0.01 then 0.01 else if bwOct > 4.0 then 4.0 else bwOct
  }

  /** The gain, up to 4. */
  function SetGain(gainLin: real): real {
    if gainLin > 4.0 then 4.0 else gainLin
  }

  /** A shelf's A: the root of its gain, from 10⁻⁶ to 4. */
  function SetA(m: Maths, b: Band): real {
    m.sqrt(if b.gainLin < 0.000001 then 0.000001 else SetGain(b.gainLin))
  }

  /** A shelf's slope: 1/bandwidth², up to 1.2. */
  function SetSlope(bwOct: real): (slope: real)
    ensures slope > 0.0
  {
    var bw := SetOctaves(bwOct);
    SquareOfPositive(bw);
    if 1.0 / Square(bw) > 1.2 then 1.2 else 1.0 / Square(bw)
  }

  /** What the design works with is what the settings say. */
  lemma AngleIsSet(m: Maths, b: Band, fs: real)
    requires m.Sound() && fs > 0.0
    ensures SetAngle(m, b, fs) == Omega(m, b, fs) && 0.0 < SetAngle(m, b, fs) < m.pi
  {
    assert SetFreq(b.freqHz, fs) == EffectiveFreq(b, fs);
    var f := SetFreq(b.freqHz, fs);
    assert 2.0 * m.pi * f == 2.0 * (m.pi * f);
    assert HalfOmega(m, b, fs) == m.pi * f / fs;
    hide SetFreq, EffectiveFreq, HalfOmega;
  }

  lemma WidthIsSet(b: Band)
    ensures SetOctaves(b.bwOct) == EffectiveBw(b) && SetSlope(b.bwOct) == ShelfSlope(b)
  {
  }

  lemma GainIsSet(m: Maths, b: Band)
    requires m.Sound()
    ensures SetGain(b.gainLin) == Min(b.gainLin, GAIN_MAX) && SetA(m, b) == ShelfA(m, b) > 0.0
  {
  }

  /** The cookbook's filter for a band's kind, angle and gain, with the alpha given. */
  function Cookbook(m: Maths, b: Band, fs: real, al: real): Biquad
    requires m.Sound() && b.Valid() && fs > 0.0
  {
    var c, gain := m.cos(SetAngle(m, b, fs)), SetGain(b.gainLin);
    GainIsSet(m, b);
    match b.kind
    case HighPass => CookbookHighPass(c, al)
    case Peak =>
      if gain <= 0.0 then CookbookNotch(c, al)
      else
        PositiveRoot(m, gain);
        CookbookPeak(c, al, m.sqrt(gain))
    case LowShelf => CookbookLowShelf(c, SetA(m, b), RootAlpha(m, b, al))
    case HighShelf => CookbookHighShelf(c, SetA(m, b), RootAlpha(m, b, al))
  }

  /** 2·√A·α. */
  function RootAlpha(m: Maths, b: Band, al: real): real {
    2.0 * m.sqrt(SetA(m, b)) * al
  }

  /** ln2/2 · bandwidth · warp, where the Note's own warp is w0 / sin w0. */
  function OctaveWidth(m: Maths, bw: real, warp: real): real {
    m.ln2 / 2.0 * bw * warp
  }

  /** The alpha of a bandwidth of that width. */
  function BandAlpha(m: Maths, w0: real, width: real): real {
    m.sin(w0) * m.sinh(width)
  }

  /** The warp a band uses: the Note's up to the angle π/2, and π/2 beyond. */
  function UsedWarp(m: Maths, w0: real): real
    requires m.Sound() && 0.0 < w0 < m.pi
  {
    if w0 <= m.pi / 2.0 then w0 / m.sin(w0) else m.pi / 2.0
  }

  /** What stands under the root in the alpha of a shelf's slope. */
  function SlopeTerm(a: real, slope: real): real
    requires a != 0.0 && slope != 0.0
  {
    (a + 1.0 / a) * (1.0 / slope - 1.0) + 2.0
  }

  function SlopeAlpha(m: Maths, w0: real, term: real): real {
    m.sin(w0) / 2.0 * m.sqrt(term)
  }

  /** The alpha a band gets: the Note's, but the warp stops at π/2 (from the angle π/2 on) and
      a negative slope term is taken as 0. */
  function UsedAlpha(m: Maths, b: Band, fs: real): real
    requires m.Sound() && fs > 0.0
  {
    var w0 := SetAngle(m, b, fs);
    AngleIsSet(m, b, fs);
    GainIsSet(m, b);
    if IsShelf(b) then SlopeAlpha(m, w0, Max(SlopeTerm(SetA(m, b), SetSlope(b.bwOct)), 0.0))
    else BandAlpha(m, w0, OctaveWidth(m, SetOctaves(b.bwOct), UsedWarp(m, w0)))
  }

  lemma AlphaIs(m: Maths, b: Band, fs: real)
    requires m.Sound() && fs > 0.0 && !IsShelf(b)
    ensures UsedAlpha(m, b, fs) == m.sin(Omega(m, b, fs)) * InverseQ(m, b, fs) / 2.0
  {
    AngleIsSet(m, b, fs);
    WidthIs(m, b, fs);
    InverseQIs(m, b, fs);
    hide Maths.Sound, Omega, Width, EffectiveBw, OctaveWidth, UsedWarp, InverseQ;
  }

  lemma WidthIs(m: Maths, b: Band, fs: real)
    requires m.Sound() && fs > 0.0
    ensures Width(m, b, fs) == OctaveWidth(m, EffectiveBw(b), UsedWarp(m, Omega(m, b, fs)))
  {
    hide EffectiveBw, HalfOmega;
  }

  lemma InverseQIs(m: Maths, b: Band, fs: real)
    requires m.Sound() && fs > 0.0
    ensures InverseQ(m, b, fs) == 2.0 * m.sinh(Width(m, b, fs))
  {
    hide Maths.Sound, Omega, Width;
  }

  lemma RootAlphaIs(m: Maths, b: Band, fs: real)
    requires m.Sound() && fs > 0.0 && IsShelf(b)
    ensures RootAlpha(m, b, UsedAlpha(m, b, fs)) == (ShelfK(m, b) * m.sqrt(ShelfA(m, b))) * m.sin(Omega(m, b, fs))
  {
    AngleIsSet(m, b, fs);
    GainIsSet(m, b);
    WidthIsSet(b);
    RadicandIs(m, b);
    hide Maths.Sound, Omega, ShelfA, ShelfSlope, ShelfRadicand, SlopeTerm;
  }

  lemma RadicandIs(m: Maths, b: Band)
    requires m.Sound()
    ensures ShelfRadicand(m, b) == SlopeTerm(ShelfA(m, b), ShelfSlope(b))
  {
    hide Maths.Sound, ShelfA, ShelfSlope;
  }

  // what the design and the cookbook make of a band of each kind, at its angle

  lemma HighPassCase(m: Maths, b: Band, fs: real, w: real, c: real, sn: real, q: real)
    requires m.Sound() && b.Valid() && fs > 0.0 && b.kind.HighPass?
    requires w == HalfOmega(m, b, fs) && m.tan(w) > 0.0 && c == m.cos(Omega(m, b, fs)) && sn == m.sin(Omega(m, b, fs))
             && q == InverseQ(m, b, fs)
    ensures var al := UsedAlpha(m, b, fs);
            && al == sn * q / 2.0
            && Design(m, b, fs) == DesignHighPass(m.tan(w), q)
            && Cookbook(m, b, fs, UsedAlpha(m, b, fs)) == CookbookHighPass(c, al)
  {
    AngleIsSet(m, b, fs);
    GainIsSet(m, b);
    AlphaIs(m, b, fs);
    hide Maths.Sound, HalfOmega, Omega, Width, UsedAlpha, InverseQ, DesignHighPass, CookbookHighPass, Coefs.Passive;
  }

  lemma NotchCase(m: Maths, b: Band, fs: real, w: real, c: real, sn: real, q: real)
    requires m.Sound() && b.Valid() && fs > 0.0 && b.kind.Peak? && Min(b.gainLin, GAIN_MAX) <= 0.0
    requires w == HalfOmega(m, b, fs) && m.tan(w) > 0.0 && c == m.cos(Omega(m, b, fs)) && sn == m.sin(Omega(m, b, fs))
             && q == InverseQ(m, b, fs)
    ensures var al := UsedAlpha(m, b, fs);
            && al == sn * q / 2.0
            && Design(m, b, fs) == DesignNotch(m.tan(w), q)
            && Cookbook(m, b, fs, UsedAlpha(m, b, fs)) == CookbookNotch(c, al)
  {
    AngleIsSet(m, b, fs);
    GainIsSet(m, b);
    AlphaIs(m, b, fs);
    hide Maths.Sound, HalfOmega, Omega, Width, UsedAlpha, InverseQ, DesignNotch, CookbookNotch, Coefs.Passive;
  }

  lemma PeakCase(m: Maths, b: Band, fs: real, w: real, c: real, sn: real, q: real, a: real)
    requires m.Sound() && b.Valid() && fs > 0.0 && b.kind.Peak? && Min(b.gainLin, GAIN_MAX) > 0.0
    requires w == HalfOmega(m, b, fs) && m.tan(w) > 0.0 && c == m.cos(Omega(m, b, fs)) && sn == m.sin(Omega(m, b, fs))
             && q == InverseQ(m, b, fs)
    requires a == m.sqrt(Min(b.gainLin, GAIN_MAX)) && a > 0.0
    ensures var al := UsedAlpha(m, b, fs);
            && al == sn * q / 2.0
            && Design(m, b, fs) == DesignPeak(m.tan(w), q, a)
            && Cookbook(m, b, fs, UsedAlpha(m, b, fs)) == CookbookPeak(c, al, a)
  {
    AngleIsSet(m, b, fs);
    GainIsSet(m, b);
    AlphaIs(m, b, fs);
    hide Maths.Sound, HalfOmega, Omega, Width, UsedAlpha, InverseQ, DesignPeak, CookbookPeak, Coefs.Passive, Min;
  }

  lemma ShelfCase(m: Maths, b: Band, fs: real, w: real, c: real, sn: real, a: real, k: real, r: real)
    requires m.Sound() && b.Valid() && fs > 0.0 && (b.kind.LowShelf? || b.kind.HighShelf?)
    requires w == HalfOmega(m, b, fs) && m.tan(w) > 0.0 && c == m.cos(Omega(m, b, fs)) && sn == m.sin(Omega(m, b, fs))
    requires a == ShelfA(m, b) && k == ShelfK(m, b) && r == m.sqrt(a) && r > 0.0
    ensures var qs := RootAlpha(m, b, UsedAlpha(m, b, fs));
            && qs == (k * r) * sn
            && Design(m, b, fs) == (if b.kind.LowShelf? then DesignLowShelf(m.tan(w), k, a, r)
                                    else DesignHighShelf(m.tan(w), k, a, r))
            && Cookbook(m, b, fs, UsedAlpha(m, b, fs)) == (if b.kind.LowShelf? then CookbookLowShelf(c, a, qs)
                                      else CookbookHighShelf(c, a, qs))
  {
    AngleIsSet(m, b, fs);
    GainIsSet(m, b);
    RootAlphaIs(m, b, fs);
    hide Maths.Sound, HalfOmega, Omega, ShelfA, ShelfK, UsedAlpha, RootAlpha, DesignLowShelf, DesignHighShelf,
      CookbookLowShelf, CookbookHighShelf, Coefs.Passive;
  }

  lemma HighPassIsCookbook(m: Maths, b: Band, fs: real, xs: seq<real>)
    requires m.Sound() && b.Valid() && fs > 0.0 && m.HalfAngles() && b.kind.HighPass?
    requires Unflushable(Design(m, b, fs), ZERO, xs)
    ensures Cookbook(m, b, fs, UsedAlpha(m, b, fs)).a0 != 0.0
    ensures Response(Design(m, b, fs), ZERO, xs) == DirectForm(Cookbook(m, b, fs, UsedAlpha(m, b, fs)), SILENT, xs)
  {
    hide *;
    var w, q := HalfOmega(m, b, fs), InverseQ(m, b, fs);
    var c, sn := m.cos(Omega(m, b, fs)), m.sin(Omega(m, b, fs));
    Angle(m, b, fs);
    HighPassCase(m, b, fs, w, c, sn, q);
    HighPassBand(m.tan(w), q, UsedAlpha(m, b, fs), c, sn, xs);
  }

  lemma PeakIsCookbook(m: Maths, b: Band, fs: real, xs: seq<real>)
    requires m.Sound() && b.Valid() && fs > 0.0 && m.HalfAngles() && b.kind.Peak?
    requires Unflushable(Design(m, b, fs), ZERO, xs)
    ensures Cookbook(m, b, fs, UsedAlpha(m, b, fs)).a0 != 0.0
    ensures Response(Design(m, b, fs), ZERO, xs) == DirectForm(Cookbook(m, b, fs, UsedAlpha(m, b, fs)), SILENT, xs)
  {
    hide *;
    var w, q, gain := HalfOmega(m, b, fs), InverseQ(m, b, fs), Min(b.gainLin, GAIN_MAX);
    var c, sn := m.cos(Omega(m, b, fs)), m.sin(Omega(m, b, fs));
    Angle(m, b, fs);
    if gain <= 0.0 {
      NotchCase(m, b, fs, w, c, sn, q);
      NotchBand(m.tan(w), q, UsedAlpha(m, b, fs), c, sn, xs);
    } else {
      PositiveRoot(m, gain);
      PeakCase(m, b, fs, w, c, sn, q, m.sqrt(gain));
      PeakBand(m.tan(w), q, m.sqrt(gain), UsedAlpha(m, b, fs), c, sn, xs);
    }
  }

  lemma ShelfIsCookbook(m: Maths, b: Band, fs: real, xs: seq<real>)
    requires m.Sound() && b.Valid() && fs > 0.0 && m.HalfAngles()
             && (b.kind.LowShelf? || b.kind.HighShelf?)
    requires Unflushable(Design(m, b, fs), ZERO, xs)
    ensures Cookbook(m, b, fs, UsedAlpha(m, b, fs)).a0 != 0.0
    ensures Response(Design(m, b, fs), ZERO, xs) == DirectForm(Cookbook(m, b, fs, UsedAlpha(m, b, fs)), SILENT, xs)
  {
    hide *;
    var w, a, k := HalfOmega(m, b, fs), ShelfA(m, b), ShelfK(m, b);
    var c, sn, r := m.cos(Omega(m, b, fs)), m.sin(Omega(m, b, fs)), m.sqrt(a);
    Angle(m, b, fs);
    ShelfRoot(m, a);
    ShelfCase(m, b, fs, w, c, sn, a, k, r);
    var qs := RootAlpha(m, b, UsedAlpha(m, b, fs));
    if b.kind.LowShelf? {
      LowShelfBand(m.tan(w), k, a, r, k * r, qs, c, sn, xs);
    } else {
      HighShelfBand(m.tan(w), k, a, r, k * r, qs, c, sn, xs);
    }
  }

  lemma ShelfRoot(m: Maths, a: real)
    requires m.Sound() && a > 0.0
    ensures m.sqrt(a) > 0.0 && a == m.sqrt(a) * m.sqrt(a)
  {
    PositiveRoot(m, a);
  }

  lemma Angle(m: Maths, b: Band, fs: real)
    requires m.Sound() && fs > 0.0 && m.HalfAngles()
    ensures var w, w0 := HalfOmega(m, b, fs), Omega(m, b, fs);
            m.tan(w) > 0.0 && HalfTangent(m.tan(w), m.cos(w0), m.sin(w0))
  {
    assert m.HalfAngle(HalfOmega(m, b, fs));
    hide HalfOmega;
  }

  /** Every band, at every setting and rate, is the cookbook's filter of its kind, angle and
      gain at the alpha it uses: from rest both give the same output for every input that does
      not run into the denormal flush. When that is the Note's own alpha, and what follows
      when it is not, is `CookbookNote.NoteExactly`. */
  lemma EveryKindIsCookbook(m: Maths, b: Band, fs: real, xs: seq<real>)
    requires m.Sound() && b.Valid() && fs > 0.0 && m.HalfAngles()
    requires Unflushable(Design(m, b, fs), ZERO, xs)
    ensures Cookbook(m, b, fs, UsedAlpha(m, b, fs)).a0 != 0.0
    ensures Response(Design(m, b, fs), ZERO, xs) == DirectForm(Cookbook(m, b, fs, UsedAlpha(m, b, fs)), SILENT, xs)
  {
    hide *;
    match b.kind {
      case HighPass => HighPassIsCookbook(m, b, fs, xs);
      case Peak => PeakIsCookbook(m, b, fs, xs);
      case LowShelf => ShelfIsCookbook(m, b, fs, xs);
      case HighShelf => ShelfIsCookbook(m, b, fs, xs);
    }
  }
}
