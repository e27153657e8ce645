/**
What damping is for: with it a filter's energy stays bounded on every input that stays within
full scale, and without it no bound holds. The energy alone does not show it (a tick may lose
none of it), so the proof follows a skewed energy, which every tick lowers as soon as the
band-pass or the low-pass is far from 0, with denormals flushed or not.
*/
module Damping {
  import opened Reals
  import opened Svf
  import opened Designs

  /** How far the skewed energy leans, for a damping k: h with h·(k² + 4) = k. */
  function Lean(k: real): (h: real)
    requires k > 0.0
    ensures 0.0 < h <= 0.25 && Product(h, k * k + 4.0) == k
  {
    var d := k * k + 4.0;
    assert (k - 2.0) * (k - 2.0) == d - 4.0 * k;
    AQuarter(k, d);
    k / d
  }

  lemma AQuarter(k: real, d: real)
    requires k > 0.0 && d >= 4.0 * k
    ensures 0.0 < k / d <= 0.25 && Product(k / d, d) == k
  {
  }

  /** The skewed energy. */
  function Skewed(h: real, a: real, b: real): real {
    a * a + 4.0 * (h * (a * b)) + b * b
  }

  /** What the damping takes from it in one tick, and what the input brings. */
  function Loss(h: real, k: real, v: real, w: real): real {
    h * ((k * v + w) * (k * v + w) + 2.0 * (v * v) + w * w)
  }

  function Brought(h: real, x: real, v: real, w: real): real {
    x * (v + 2.0 * (h * w))
  }

  function Drift(h: real, p: real, q: real, v: real, w: real): real {
    p * v + q * w + 2.0 * (h * (p * w + q * v))
  }

  /** The trapezoidal equations: inputs x, a, b and outputs v, w of one tick. */
  predicate Moves(g: real, k: real, x: real, v: real, w: real, a: real, b: real) {
    v - a == Product(g, x - Product(k, v) - w) && w - b == Product(g, v)
  }

  /** Its exact balance over one unflushed tick, from the trapezoidal equations. */
  lemma SkewBalance(g: real, k: real, h: real, x: real, v: real, w: real, a: real, b: real)
    requires Product(h, k * k + 4.0) == k
    requires Moves(g, k, x, v, w, a, b)
    ensures Skewed(h, 2.0 * v - a, 2.0 * w - b) ==
            Skewed(h, a, b) + 4.0 * Product(g, Brought(h, x, v, w) - Loss(h, k, v, w))
  {
    hide Skewed, Loss, Brought, Drift, Product;
    var p, q, t := v - a, w - b, x - Product(k, v) - w;
    assert v + p == 2.0 * v - a && v - p == a && w + q == 2.0 * w - b && w - q == b;
    Reflected(h, v, w, p, q);
    DriftScales(g, h, t, v, w, p, q);
    LossIs(h, k, x, v, w, t);
  }

  lemma Reflected(h: real, v: real, w: real, p: real, q: real)
    ensures Skewed(h, v + p, w + q) == Skewed(h, v - p, w - q) + 4.0 * Drift(h, p, q, v, w)
  {
    assert (v + p) * (v + p) - (v - p) * (v - p) == 4.0 * (p * v);
    assert (w + q) * (w + q) - (w - q) * (w - q) == 4.0 * (q * w);
    var one, two := (v + p) * (w + q), (v - p) * (w - q);
    assert one - two == 2.0 * (p * w + q * v);
    assert h * one - h * two == h * (one - two);
  }

  lemma DriftScales(g: real, h: real, t: real, v: real, w: real, p: real, q: real)
    requires p == Product(g, t) && q == Product(g, v)
    ensures Drift(h, p, q, v, w) == Product(g, Drift(h, t, v, v, w))
  {
    var m := t * w + v * v;
    assert p * w + q * v == g * m;
    assert h * (g * m) == g * (h * m);
  }

  lemma LossIs(h: real, k: real, x: real, v: real, w: real, t: real)
    requires Product(h, k * k + 4.0) == k && t == x - Product(k, v) - w
    ensures Drift(h, t, v, v, w) == Brought(h, x, v, w) - Loss(h, k, v, w)
  {
    var vv, vw, ww := v * v, v * w, w * w;
    assert t * v + vw == x * v - k * vv;
    assert t * w == x * w - k * vw - ww;
    assert (k * v + w) * (k * v + w) == k * k * vv + 2.0 * (k * vw) + ww;
    assert k * vv == h * ((k * k + 4.0) * vv);
    assert (k * k + 4.0) * vv == k * k * vv + 4.0 * vv;
    assert x * (v + 2.0 * (h * w)) == x * v + 2.0 * (h * (x * w));
  }

  // ----- how much a tick takes and brings, by how far the two outputs are from 0

  lemma BroughtAtMost(h: real, x: real, v: real, w: real)
    requires 0.0 < h <= 0.25 && -1.0 <= x <= 1.0
    ensures Brought(h, x, v, w) <= Abs(v) + Abs(w)
  {
    var z := h * w;
    Shrunk(h, w);
    ShrunkByFour(h, w);
    Shrunk(x, v + 2.0 * z);
    assert Abs(v + 2.0 * z) <= Abs(v) + Abs(w);
  }

  lemma ShrunkByFour(h: real, w: real)
    requires 0.0 < h <= 0.25
    ensures Abs(h * w) <= 0.25 * Abs(w)
  {
    NonNegativeProduct(0.25 - h, Abs(w));
    AbsScales(h, w);
  }

  lemma Shrunk(x: real, y: real)
    requires -1.0 <= x <= 1.0
    ensures -Abs(y) <= x * y <= Abs(y)
  {
    NonNegativeProduct(1.0 - x, Abs(y));
    NonNegativeProduct(1.0 + x, Abs(y));
  }

  lemma LossAtLeast(h: real, k: real, v: real, w: real)
    requires h > 0.0
    ensures 2.0 * Loss(h, k, v, w) >= Product(h, Square(Abs(v) + Abs(w)))
  {
    SquareNotNegative(k * v + w);
    SquareNotNegative(v);
    SquareNotNegative(w);
    SquareNotNegative(Abs(v) - Abs(w));
    var u, d := Square(Abs(v) + Abs(w)), Square(Abs(v) - Abs(w));
    assert u + d == 2.0 * (v * v + w * w);
    var all := Square(k * v + w) + 2.0 * (v * v) + w * w;
    assert 2.0 * all >= u;
    assert Loss(h, k, v, w) == h * all;
    NonNegativeProduct(h, 2.0 * all - u);
  }

  lemma SquareNotNegative(x: real)
    ensures Square(x) >= 0.0
  {
  }

  function Spread(g: real, k: real): real {
    1.0 + g + g * k
  }

  /** The two components after the tick. */
  lemma SpreadAtMost(g: real, k: real, x: real, v: real, w: real, t: real)
    requires g >= 0.0 && k >= 0.0 && -1.0 <= x <= 1.0 && t == x - Product(k, v) - w
    ensures Abs(v + Product(g, t)) + Abs(w + Product(g, v)) <= Product(Spread(g, k), Abs(v) + Abs(w) + 1.0)
  {
    var p, q := Abs(v), Abs(w);
    hide Product;
    AbsScales(k, v);
    AbsScales(g, t);
    AbsScales(g, v);
    var r := 1.0 + Product(k, p) + q;
    Grown(g, Abs(t), r);
    SpreadSum(g, k, p, q);
  }

  lemma SpreadSum(g: real, k: real, p: real, q: real)
    requires g >= 0.0 && k >= 0.0 && p >= 0.0 && q >= 0.0
    ensures p + Product(g, 1.0 + Product(k, p) + q) + q + Product(g, p) <= Product(Spread(g, k), p + q + 1.0)
  {
    var m := g * k;
    NonNegativeProduct(g, k);
    NonNegativeProduct(m, q + 1.0);
    assert g * (k * p) == m * p;
    assert g * (1.0 + k * p + q) == g + g * (k * p) + g * q;
    assert (1.0 + g + m) * (p + q + 1.0) == (p + q + 1.0) + (g * p + g * q + g) + (m * p + m * (q + 1.0));
  }

  lemma AbsScales(c: real, y: real)
    requires c >= 0.0
    ensures Abs(Product(c, y)) == Product(c, Abs(y))
  {
  }

  lemma Grown(c: real, x: real, y: real)
    requires c >= 0.0 && x <= y
    ensures Product(c, x) <= Product(c, y)
  {
    NonNegativeProduct(c, y - x);
  }

  // ----- the skewed energy against the energy, and under the flush

  lemma SkewedRange(h: real, a: real, b: real)
    requires 0.0 < h <= 0.25
    ensures a * a + b * b <= 2.0 * Skewed(h, a, b)
    ensures Skewed(h, a, b) <= Square(Abs(a) + Abs(b))
  {
    Shrunk(4.0 * h, a * b);
    assert 4.0 * h * (a * b) == 4.0 * (h * (a * b));
    SquareNotNegative(a + b);
    SquareNotNegative(a - b);
    assert Abs(a * b) == Abs(a) * Abs(b);
  }

  lemma FlushedSkew(h: real, a: real, b: real)
    requires 0.0 < h <= 0.25
    ensures Skewed(h, Flush(a), Flush(b)) <= Skewed(h, a, b) + Abs(a) + Abs(b)
    ensures Abs(Flush(a)) <= Abs(a) && Abs(Flush(b)) <= Abs(b)
  {
    hide Skewed, Abs;
    SkewedOfZero(h, a);
    SkewedOfZero(h, b);
    Tilt(h, a, b);
  }

  lemma SkewedOfZero(h: real, a: real)
    ensures Skewed(h, a, 0.0) == Square(a) && Skewed(h, 0.0, a) == Square(a) && Skewed(h, 0.0, 0.0) == 0.0
  {
  }

  lemma Tilt(h: real, a: real, b: real)
    requires 0.0 < h <= 0.25
    ensures Skewed(h, a, b) >= 0.0
    ensures -1.0 <= a <= 1.0 ==> Square(b) <= Skewed(h, a, b) + Abs(b)
    ensures -1.0 <= b <= 1.0 ==> Square(a) <= Skewed(h, a, b) + Abs(a)
  {
    SkewedRange(h, a, b);
    assert a * a + b * b >= 0.0;
    assert Skewed(h, a, b) == Skewed(h, b, a);
    hide Skewed, Square, Abs;
    if -1.0 <= a <= 1.0 {
      TiltOne(h, a, b);
    }
    if -1.0 <= b <= 1.0 {
      TiltOne(h, b, a);
    }
  }

  /** Setting a component of size at most 1 to 0. */
  lemma TiltOne(h: real, a: real, b: real)
    requires 0.0 < h <= 0.25 && -1.0 <= a <= 1.0
    ensures Square(b) <= Skewed(h, a, b) + Abs(b)
  {
    var m := a * b;
    Shrunk(a, b);
    ShrunkByFour(h, m);
    assert Skewed(h, a, b) == Square(a) + 4.0 * (h * m) + Square(b);
    SquareNotNegative(a);
    hide Skewed, Square;
  }

  // ----- one tick

  /** Per tick, all that is linear in the outputs: what the input brings and what the flush
      can do, for each of `Abs(v) + Abs(w) + 1`. */
  function Slope(g: real, k: real): real {
    1.0 + 5.0 * g + g * k
  }

  /** From this size of the outputs on, the damping takes more than that. */
  function Far(rate: real, slope: real): real
    requires rate > 0.0
  {
    1.0 + slope / rate
  }

  lemma FarOutweighs(rate: real, slope: real, u: real)
    requires rate > 0.0 && slope >= 0.0 && u >= Far(rate, slope)
    ensures 2.0 * Product(rate, Square(u)) >= Product(slope, u + 1.0)
  {
    var q := slope / rate;
    assert q * rate == slope && q >= 0.0;
    var y := rate * u;
    assert y >= slope by {
      NonNegativeProduct(rate, u - q);
      assert rate * (u - q) == y - slope;
    }
    NonNegativeProduct(y - slope, u);
    assert Product(rate, Square(u)) == y * u;
    NonNegativeProduct(slope, u - 1.0);
  }

  /** One tick, before the flush, of outputs of size u. */
  lemma SkewFalls(g: real, k: real, h: real, x: real, v: real, w: real, a: real, b: real)
    requires g > 0.0 && k > 0.0 && 0.0 < h <= 0.25 && Product(h, k * k + 4.0) == k && -1.0 <= x <= 1.0
    requires Moves(g, k, x, v, w, a, b)
    ensures var u := Abs(v) + Abs(w);
            Skewed(h, 2.0 * v - a, 2.0 * w - b) <=
            Skewed(h, a, b) + 4.0 * Product(g, u) - 2.0 * Product(Product(g, h), Square(u))
  {
    var u := Abs(v) + Abs(w);
    hide Skewed, Abs, Loss, Brought, Square, Product, Moves;
    SkewBalance(g, k, h, x, v, w, a, b);
    BroughtAtMost(h, x, v, w);
    LossAtLeast(h, k, v, w);
    FallBy(g, h, u, Square(u), Brought(h, x, v, w), Loss(h, k, v, w));
  }

  lemma FallBy(g: real, h: real, u: real, uu: real, brought: real, loss: real)
    requires g > 0.0 && brought <= u && 2.0 * loss >= Product(h, uu)
    ensures 4.0 * Product(g, brought - loss) <= 4.0 * Product(g, u) - 2.0 * Product(Product(g, h), uu)
  {
    var m := h * uu;
    assert Product(Product(g, h), uu) == g * m;
    Grown(g, brought - loss, u - m / 2.0);
    assert g * (u - m / 2.0) == g * u - g * m / 2.0;
  }

  lemma SlopeSum(g: real, k: real, u: real)
    requires g > 0.0 && k > 0.0 && u >= 0.0
    ensures 4.0 * Product(g, u) + Product(Spread(g, k), u + 1.0) <= Product(Slope(g, k), u + 1.0)
    ensures Product(Spread(g, k), u + 1.0) <= Product(Slope(g, k), u + 1.0)
    ensures Slope(g, k) >= 0.0
  {
    var m := g * k;
    NonNegativeProduct(g, u);
    NonNegativeProduct(g, k);
    assert (1.0 + 5.0 * g + m) * (u + 1.0) == (1.0 + g + m) * (u + 1.0) + 4.0 * (g * u) + 4.0 * g;
  }

  /** Where a tick can leave the skewed energy when the outputs are not far from 0. */
  function Reach(g: real, k: real): real
    requires g > 0.0 && k > 0.0
  {
    RatePositive(g, k);
    Square(Product(Slope(g, k), Far(Product(g, Lean(k)), Slope(g, k)) + 1.0))
  }

  lemma RatePositive(g: real, k: real)
    requires g > 0.0 && k > 0.0
    ensures Product(g, Lean(k)) > 0.0
  {
    hide Product;
    ProductPositive(g, Lean(k));
  }

  lemma TickSkew(g: real, k: real, x: real, v: real, w: real, a: real, b: real)
    requires g > 0.0 && k > 0.0 && -1.0 <= x <= 1.0 && Moves(g, k, x, v, w, a, b)
    ensures var n := Skewed(Lean(k), Flush(2.0 * v - a), Flush(2.0 * w - b));
            n <= Skewed(Lean(k), a, b) || n <= Reach(g, k)
  {
    var h, u, t := Lean(k), Abs(v) + Abs(w), x - Product(k, v) - w;
    var p, q := v + Product(g, t), w + Product(g, v);
    assert p == 2.0 * v - a && q == 2.0 * w - b;
    hide Skewed, Abs, Square, Product, Slope, Spread, Flush, Lean, Far, Reach, Moves;
    RatePositive(g, k);
    SlopeSum(g, k, u);
    SpreadAtMost(g, k, x, v, w, t);
    FlushedSkew(h, p, q);
    if u >= Far(Product(g, h), Slope(g, k)) {
      SkewFalls(g, k, h, x, v, w, a, b);
      FarOutweighs(Product(g, h), Slope(g, k), u);
    } else {
      SkewedRange(h, Flush(p), Flush(q));
      NearReach(g, k, u, Abs(Flush(p)) + Abs(Flush(q)));
    }
  }

  lemma NearReach(g: real, k: real, u: real, size: real)
    requires g > 0.0 && k > 0.0 && Product(g, Lean(k)) > 0.0 && Slope(g, k) >= 0.0
    requires u < Far(Product(g, Lean(k)), Slope(g, k)) && 0.0 <= size <= Product(Slope(g, k), u + 1.0)
    ensures Square(size) <= Reach(g, k)
  {
    hide Square, Product, Slope, Lean, Far;
    var far := Far(Product(g, Lean(k)), Slope(g, k));
    Grown(Slope(g, k), u + 1.0, far + 1.0);
    SquareGrows(size, Product(Slope(g, k), far + 1.0));
  }

  lemma SquareGrows(x: real, y: real)
    requires 0.0 <= x <= y
    ensures Square(x) <= Square(y)
  {
  }

  // ----- whole runs

  function SkewOf(c: Coefs, s: State): real
    requires c.k > 0.0
  {
    Skewed(Lean(c.k), s.ic1, s.ic2)
  }

  lemma NextSkew(c: Coefs, s: State, x: real)
    requires c.Passive() && c.g > 0.0 && c.k > 0.0 && -1.0 <= x <= 1.0
    ensures SkewOf(c, Next(c, s, x)) <= SkewOf(c, s) || SkewOf(c, Next(c, s, x)) <= Reach(c.g, c.k)
  {
    var v, w := BandPass(c, s, x), LowPass(c, s, x);
    Trapezoid(c, s, x);
    assert Moves(c.g, c.k, x, v, w, s.ic1, s.ic2);
    assert Next(c, s, x) == State(Flush(2.0 * v - s.ic1), Flush(2.0 * w - s.ic2));
    hide BandPass, LowPass, Flush, Next, Reach, Skewed, Lean, Moves, Coefs.Consistent;
    TickSkew(c.g, c.k, x, v, w, s.ic1, s.ic2);
  }

  lemma {:induction false} RunSkew(c: Coefs, s: State, run: seq<Sample>)
    requires c.Passive() && c.g > 0.0 && c.k > 0.0 && FullScale(run, c)
    ensures SkewOf(c, RunState(s, run)) <= SkewOf(c, s) || SkewOf(c, RunState(s, run)) <= Reach(c.g, c.k)
    decreases |run|
  {
    hide SkewOf, Next, Reach, Coefs.Passive;
    if run != [] {
      NextSkew(c, s, run[0].x);
      RunSkew(c, Next(c, s, run[0].x), run[1..]);
    }
  }

  /** A damped filter: one bound holds for every input that never exceeds 1, however long. */
  lemma DampedIsBounded(c: Coefs, run: seq<Sample>)
    requires c.Passive() && c.g > 0.0 && c.k > 0.0 && FullScale(run, c)
    ensures Energy(RunState(ZERO, run)) <= 2.0 * Reach(c.g, c.k)
  {
    hide *;
    RunSkew(c, ZERO, run);
    SkewedEnergy(c, ZERO);
    SkewedEnergy(c, RunState(ZERO, run));
    ReachNotNegative(c.g, c.k);
  }

  lemma SkewedEnergy(c: Coefs, s: State)
    requires c.k > 0.0
    ensures Energy(s) <= 2.0 * SkewOf(c, s)
    ensures SkewOf(c, ZERO) == 0.0
  {
    SkewedRange(Lean(c.k), s.ic1, s.ic2);
    hide Lean;
  }

  lemma ReachNotNegative(g: real, k: real)
    requires g > 0.0 && k > 0.0
    ensures Reach(g, k) >= 0.0
  {
    hide Square;
    RatePositive(g, k);
    SquareNotNegative(Product(Slope(g, k), Far(Product(g, Lean(k)), Slope(g, k)) + 1.0));
  }

  /** Some bound holds for every run of full-scale input. */
  ghost predicate Bounded(c: Coefs) {
    exists bound: real :: Bounds(c, bound)
  }

  ghost predicate Bounds(c: Coefs, bound: real) {
    forall run :: FullScale(run, c) ==> Energy(RunState(ZERO, run)) <= bound
  }

  /** A filter that a sample moves at all beyond the flush is bounded on full-scale input
      exactly when it is damped. */
  lemma BoundedExactly(c: Coefs)
    requires c.Passive() && Push(c) > 0.0
    ensures Bounded(c) <==> c.k > 0.0
  {
    PushMoves(c);
    hide Energy, RunState, Reach, Coefs.Passive, Push, FullScale;
    if c.k > 0.0 {
      forall run | FullScale(run, c) ensures Energy(RunState(ZERO, run)) <= 2.0 * Reach(c.g, c.k) {
        DampedIsBounded(c, run);
      }
      assert Bounds(c, 2.0 * Reach(c.g, c.k));
    } else if Bounded(c) {
      var bound :| Bounds(c, bound);
      var run := UndampedIsUnbounded(c, bound);
    }
  }

  lemma PushMoves(c: Coefs)
    requires c.Passive() && Push(c) > 0.0
    ensures c.g > 0.0 && c.k >= 0.0
  {
    A2NotNegative(c);
  }

  /** A designed band is bounded exactly when it is no shelf, or one with a positive radicand. */
  lemma DesignBoundedExactly(m: Maths, b: Band, fs: real)
    requires m.Sound() && m.Strict() && b.Valid() && fs > 0.0 && Push(Design(m, b, fs)) > 0.0
    ensures Bounded(Design(m, b, fs)) <==> !IsShelf(b) || ShelfRadicand(m, b) > 0.0
  {
    hide *;
    DampedExactly(m, b, fs);
    BoundedExactly(Design(m, b, fs));
  }
}
