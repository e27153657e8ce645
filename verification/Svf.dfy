/**
The state-variable filter of one equalizer band (linear trapezoidal): its coefficients,
one sample through it, the energy its state holds, and the biquad it is equal to.
*/
module Svf {
  import opened Reals

  /** y = m0·x + m1·band + m2·low. */
  datatype Coefs = Coefs(g: real, k: real, a1: real, a2: real, a3: real, m0: real, m1: real, m2: real) {

    /** The coefficients `Filter` makes of its own g and k: none is out of step. */
    ghost predicate Consistent() {
      && a1 * Denominator(g, k) == 1.0
      && a2 == g * a1
      && a3 == g * a2
    }

    /** A filter that adds no energy of its own: no negative frequency or damping. */
    ghost predicate Passive() {
      Consistent() && g >= 0.0 && k >= 0.0
    }
  }

  function Denominator(g: real, k: real): real {
    1.0 + g * (g + k)
  }

  function Filter(g: real, k: real, m0: real, m1: real, m2: real): (c: Coefs)
    requires Denominator(g, k) != 0.0
    ensures c.Consistent()
  {
    var a1 := 1.0 / Denominator(g, k);
    var a2 := g * a1;
    Coefs(g, k, a1, a2, g * a2, m0, m1, m2)
  }

  lemma DenominatorPositive(g: real, k: real)
    requires g >= 0.0 && k >= 0.0
    ensures Denominator(g, k) >= 1.0
  {
  }

  const DENORMAL: real := 0.000000000000000000000000000001

  function Flush(x: real): real {
    if -DENORMAL < x < DENORMAL then 0.0 else x
  }

  /** The two integrators. */
  datatype State = State(ic1: real, ic2: real)

  const ZERO: State := State(0.0, 0.0)

  /** The band-pass and low-pass outputs for input `x`. */
  function BandPass(c: Coefs, s: State, x: real): real {
    c.a1 * s.ic1 + c.a2 * (x - s.ic2)
  }

  function LowPass(c: Coefs, s: State, x: real): real {
    s.ic2 + c.a2 * s.ic1 + c.a3 * (x - s.ic2)
  }

  /** The next state before denormals are flushed. */
  function Unflushed(c: Coefs, s: State, x: real): State {
    State(2.0 * BandPass(c, s, x) - s.ic1, 2.0 * LowPass(c, s, x) - s.ic2)
  }

  function Next(c: Coefs, s: State, x: real): State {
    var n := Unflushed(c, s, x);
    State(Flush(n.ic1), Flush(n.ic2))
  }

  function Output(c: Coefs, s: State, x: real): real {
    c.m0 * x + c.m1 * BandPass(c, s, x) + c.m2 * LowPass(c, s, x)
  }

  // ----- the trapezoidal equations the tick solves

  lemma Trapezoid(c: Coefs, s: State, x: real)
    requires c.Consistent()
    ensures LowPass(c, s, x) == s.ic2 + c.g * BandPass(c, s, x)
    ensures Denominator(c.g, c.k) * BandPass(c, s, x) == s.ic1 + c.g * (x - s.ic2)
    ensures BandPass(c, s, x) - s.ic1
         == c.g * (x - c.k * BandPass(c, s, x) - LowPass(c, s, x))
  {
  }

  // ----- the energy of the state

  function Energy(s: State): real {
    s.ic1 * s.ic1 + s.ic2 * s.ic2
  }

  /** Flushing only takes energy out. */
  lemma FlushLowersEnergy(c: Coefs, s: State, x: real)
    ensures Energy(Next(c, s, x)) <= Energy(Unflushed(c, s, x))
  {
  }

  /** The exact balance of one tick: what the input puts in less what the damping takes. */
  lemma EnergyBalance(c: Coefs, s: State, x: real)
    requires c.Consistent()
    ensures var v1 := BandPass(c, s, x);
            Energy(Unflushed(c, s, x)) == Energy(s) + 4.0 * c.g * (v1 * x - c.k * (v1 * v1))
  {
  }

  /** What one input sample can add: g·x²/k, or nothing at all when it is silent. */
  function Supply(c: Coefs, x: real): real {
    if x == 0.0 then 0.0 else if c.k == 0.0 then 0.0 else c.g * (x * x) / c.k
  }

  /** What a tick with band-pass `v` takes in, less what the damping takes out. */
  function Intake(c: Coefs, v: real, x: real): real {
    4.0 * c.g * (v * x - c.k * (v * v))
  }

  lemma IntakeBalances(c: Coefs, s: State, x: real)
    requires c.Consistent()
    ensures Energy(Unflushed(c, s, x)) == Energy(s) + Intake(c, BandPass(c, s, x), x)
  {
    EnergyBalance(c, s, x);
    hide Energy, Unflushed, BandPass, Coefs.Consistent;
  }

  lemma TickSupply(c: Coefs, v: real, x: real)
    requires c.Passive()
    requires x == 0.0 || c.k > 0.0
    ensures Intake(c, v, x) <= Supply(c, x)
  {
    if x == 0.0 {
      assert v * v >= 0.0;
      NonNegativeProduct(c.k, v * v);
      NonNegativeProduct(c.g, c.k * (v * v));
    } else {
      CompleteTheSquare(c.g, c.k, v, x);
    }
  }

  /** One tick of any passive filter: silence never adds energy; with damping, an input
      adds at most g·x²/k. */
  lemma TickEnergy(c: Coefs, s: State, x: real)
    requires c.Passive()
    requires x == 0.0 || c.k > 0.0
    ensures Energy(Next(c, s, x)) <= Energy(s) + Supply(c, x)
  {
    hide Energy, Next, Supply, Unflushed, BandPass, Denominator, Intake;
    FlushLowersEnergy(c, s, x);
    IntakeBalances(c, s, x);
    TickSupply(c, BandPass(c, s, x), x);
  }

  lemma SilentNext(c: Coefs, s: State)
    requires c.Passive()
    ensures Energy(Next(c, s, 0.0)) <= Energy(s)
  {
    hide Energy, Next, Coefs.Passive;
    TickEnergy(c, s, 0.0);
  }

  lemma NonNegativeProduct(a: real, b: real)
    requires a >= 0.0 && b >= 0.0
    ensures a * b >= 0.0
  {
  }

  lemma DivideBound(a: real, k: real, b: real)
    requires k > 0.0 && k * a <= b
    ensures a <= b / k
  {
  }

  lemma CompleteTheSquare(g: real, k: real, v: real, x: real)
    requires g >= 0.0 && k > 0.0
    ensures 4.0 * g * (v * x - k * (v * v)) <= g * (x * x) / k
  {
    var w := x - 2.0 * k * v;
    assert w * w == x * x - 4.0 * (k * (v * x)) + 4.0 * (k * (k * (v * v)));
    assert w * w >= 0.0;
    var d := v * x - k * (v * v);
    assert 4.0 * (k * d) <= x * x by {
      assert k * d == k * (v * x) - k * (k * (v * v));
    }
    assert k * (4.0 * d) <= x * x;
    DivideBound(4.0 * d, k, x * x);
    assert g * (4.0 * d) <= g * (x * x / k) by {
      NonNegativeProduct(g, x * x / k - 4.0 * d);
    }
    assert g * (x * x / k) == g * (x * x) / k;
    assert 4.0 * g * d == g * (4.0 * d);
  }

  // ----- whole runs, the coefficients changing at every sample

  datatype Sample = Sample(c: Coefs, x: real)

  function RunState(s: State, run: seq<Sample>): State
    decreases |run|
  {
    if run == [] then s else RunState(Next(run[0].c, s, run[0].x), run[1..])
  }

  function RunSupply(run: seq<Sample>): real {
    if run == [] then 0.0 else Supply(run[0].c, run[0].x) + RunSupply(run[1..])
  }

  ghost predicate Fed(run: seq<Sample>) {
    forall i :: 0 <= i < |run| ==>
      run[i].c.Passive() && (run[i].x == 0.0 || run[i].c.k > 0.0)
  }

  /** A whole run is bounded by what it started with and what its inputs supplied,
      however the coefficients move. */
  lemma {:induction false} RunEnergy(s: State, run: seq<Sample>)
    requires Fed(run)
    ensures Energy(RunState(s, run)) <= Energy(s) + RunSupply(run)
    decreases |run|
  {
    hide Energy, Next, Supply, Coefs.Passive;
    if run != [] {
      TickEnergy(run[0].c, s, run[0].x);
      RunEnergy(Next(run[0].c, s, run[0].x), run[1..]);
    }
  }

  /** On silence a passive filter's energy never rises, over any run of coefficients. */
  lemma {:induction false} SilenceNeverRings(s: State, run: seq<Sample>)
    requires forall i :: 0 <= i < |run| ==> run[i].c.Passive() && run[i].x == 0.0
    ensures Energy(RunState(s, run)) <= Energy(s)
    decreases |run|
  {
    hide Energy, Next, Coefs.Passive;
    if run != [] {
      TickEnergy(run[0].c, s, 0.0);
      SilenceNeverRings(Next(run[0].c, s, run[0].x), run[1..]);
    }
  }

  /** Damping is what makes a silent filter decay: without it (k = 0) the unflushed
      energy is kept exactly; with it, every moving band-pass loses some. */
  lemma UndampedKeepsEnergy(c: Coefs, s: State)
    requires c.Passive() && c.g > 0.0 && BandPass(c, s, 0.0) != 0.0
    ensures c.k == 0.0 <==> Energy(Unflushed(c, s, 0.0)) == Energy(s)
  {
    hide Energy, Unflushed, BandPass, Coefs.Consistent, Intake;
    IntakeBalances(c, s, 0.0);
    SilentIntake(c, BandPass(c, s, 0.0), 0.0);
  }

  lemma SilentIntake(c: Coefs, v: real, x: real)
    requires c.g > 0.0 && c.k >= 0.0 && v != 0.0 && x == 0.0
    ensures c.k == 0.0 ==> Intake(c, v, x) == 0.0
    ensures c.k > 0.0 ==> Intake(c, v, x) < 0.0
  {
    hide Intake, Square;
    SquarePositive(v);
    IntakeSign(c, v, x);
  }

  lemma SquarePositive(v: real)
    requires v != 0.0
    ensures Square(v) > 0.0
  {
    hide Square;
    if v > 0.0 {
      SquareOfPositive(v);
    } else {
      SquareOfNegative(v, -v);
    }
  }

  lemma ProductPositive(a: real, b: real)
    requires a > 0.0 && b > 0.0
    ensures Product(a, b) > 0.0
  {
  }

  lemma SquareIsProduct(v: real, w: real)
    requires w == v || w == -v
    ensures Square(v) == Product(w, w)
  {
  }

  lemma SquareOfPositive(v: real)
    requires v > 0.0
    ensures Square(v) > 0.0
  {
    hide Square, Product;
    ProductPositive(v, v);
    SquareIsProduct(v, v);
  }

  lemma SquareOfNegative(v: real, w: real)
    requires v < 0.0 && w == -v
    ensures Square(v) > 0.0
  {
    hide Square, Product;
    ProductPositive(w, w);
    SquareIsProduct(v, w);
  }

  lemma IntakeSign(c: Coefs, v: real, x: real)
    requires c.g > 0.0 && c.k >= 0.0 && Square(v) > 0.0 && x == 0.0
    ensures c.k == 0.0 ==> Intake(c, v, x) == 0.0
    ensures c.k > 0.0 ==> Intake(c, v, x) < 0.0
  {
    var loss := c.k * Square(v);
    assert Intake(c, v, x) == -4.0 * (c.g * loss);
    hide Intake, Square;
    PositiveProduct(Square(v), c.k);
    PositiveProduct(loss, c.g);
  }

  lemma PositiveProduct(x: real, k: real)
    ensures x > 0.0 && k > 0.0 ==> k * x > 0.0
  {
  }

  // ----- without damping no bound on the input bounds the energy

  /** What a full-scale sample that pushes with the band-pass adds at least, flush included. */
  function Push(c: Coefs): real {
    4.0 * (c.g * c.a2) - 2.0 * (DENORMAL * DENORMAL)
  }

  /** The sample of size 1 with the sign of the band-pass. */
  function Pushing(c: Coefs, s: State): (x: real)
    ensures x == 1.0 || x == -1.0
  {
    if BandPass(c, s, 0.0) >= 0.0 then 1.0 else -1.0
  }

  lemma PushAdds(c: Coefs, s: State)
    requires c.Passive() && c.k == 0.0 && c.a2 >= 0.0
    ensures Energy(Next(c, s, Pushing(c, s))) >= Energy(s) + Push(c)
  {
    hide Energy, Unflushed, Next, BandPass, Coefs.Consistent, Pushing, Intake, Push;
    var x := Pushing(c, s);
    PushedBand(c, s);
    IntakeBalances(c, s, x);
    FlushTakesLittle(c, s, x);
    PushIntake(c, BandPass(c, s, x), x);
    PushIs(c);
  }

  lemma PushIs(c: Coefs)
    ensures Push(c) == 4.0 * (c.g * c.a2) - 2.0 * (DENORMAL * DENORMAL)
  {
  }

  lemma PushedBand(c: Coefs, s: State)
    requires c.a2 >= 0.0
    ensures BandPass(c, s, Pushing(c, s)) * Pushing(c, s) >= c.a2
  {
    var x, w := Pushing(c, s), BandPass(c, s, 0.0);
    assert BandPass(c, s, x) == w + c.a2 * x;
    hide BandPass;
    assert x == 1.0 ==> (w + c.a2 * x) * x == w + c.a2;
    assert x == -1.0 ==> (w + c.a2 * x) * x == -w + c.a2;
  }

  lemma PushIntake(c: Coefs, v: real, x: real)
    requires c.g >= 0.0 && c.k == 0.0 && v * x >= c.a2
    ensures Intake(c, v, x) >= 4.0 * (c.g * c.a2)
  {
    NonNegativeProduct(c.g, v * x - c.a2);
  }

  /** The flush takes less than the squares of two denormals. */
  lemma FlushTakesLittle(c: Coefs, s: State, x: real)
    ensures Energy(Next(c, s, x)) >= Energy(Unflushed(c, s, x)) - 2.0 * (DENORMAL * DENORMAL)
  {
    var n := Unflushed(c, s, x);
    hide Unflushed;
    FlushedSquare(n.ic1);
    FlushedSquare(n.ic2);
  }

  lemma FlushedSquare(x: real)
    ensures Flush(x) * Flush(x) >= x * x - DENORMAL * DENORMAL
  {
    if -DENORMAL < x < DENORMAL {
      var p, q := DENORMAL - x, DENORMAL + x;
      NonNegativeProduct(p, q);
      assert p * q == DENORMAL * DENORMAL - x * x;
    }
  }

  function Repeated(n: nat, x: real): real {
    n as real * x
  }

  /** So many samples of one filter, none above 1 in size. */
  ghost predicate FullScale(run: seq<Sample>, c: Coefs) {
    forall i :: 0 <= i < |run| ==> run[i].c == c && -1.0 <= run[i].x <= 1.0
  }

  lemma {:induction false} PushesAdd(c: Coefs, s: State, n: nat) returns (run: seq<Sample>)
    requires c.Passive() && c.k == 0.0 && c.a2 >= 0.0
    ensures FullScale(run, c) && Energy(RunState(s, run)) >= Energy(s) + Repeated(n, Push(c))
    decreases n
  {
    hide Energy, Next, Coefs.Passive, Push;
    if n == 0 {
      run := [];
    } else {
      var x := Pushing(c, s);
      PushAdds(c, s);
      var rest := PushesAdd(c, Next(c, s, x), n - 1);
      run := [Sample(c, x)] + rest;
      assert run[1..] == rest;
      assert Repeated(n, Push(c)) == Repeated(n - 1, Push(c)) + Push(c);
    }
  }

  /** An undamped filter that a sample moves at all beyond the flush passes every bound on
      some input that never exceeds 1. */
  lemma UndampedIsUnbounded(c: Coefs, bound: real) returns (run: seq<Sample>)
    requires c.Passive() && c.k == 0.0 && Push(c) > 0.0
    ensures FullScale(run, c) && Energy(RunState(ZERO, run)) > bound
  {
    hide *;
    A2NotNegative(c);
    RestHasNone();
    var n := Enough(bound, Push(c));
    run := PushesAdd(c, ZERO, n);
  }

  lemma RestHasNone()
    ensures Energy(ZERO) == 0.0
  {
  }

  lemma A2NotNegative(c: Coefs)
    requires c.Passive()
    ensures c.a2 >= 0.0
  {
    DenominatorPositive(c.g, c.k);
    hide Denominator;
    assert c.a1 >= 0.0;
  }

  lemma Enough(bound: real, step: real) returns (n: nat)
    requires step > 0.0
    ensures Repeated(n, step) > bound
  {
    if bound < 0.0 {
      n := 0;
    } else {
      var q := bound / step;
      assert q >= 0.0 && q * step == bound;
      n := q.Floor + 1;
      assert (n as real - q) * step > 0.0;
    }
  }
}
