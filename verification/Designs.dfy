/**
From a band's settings to its filter. The transcendental functions come in as a `Maths`
value; `Sound` lists the identities the proofs use and nothing else.
*/
module Designs {
  import opened Svf

  datatype BandKind = HighPass | LowShelf | Peak | HighShelf

  datatype Band = Band(kind: BandKind, enabled: bool, freqHz: real, gainLin: real, bwOct: real) {
    predicate Valid() {
      freqHz >= 0.0 && gainLin >= 0.0 && bwOct >= 0.0
    }
  }

  const FREQ_MIN := 20.0
  const FREQ_MAX := 24000.0
  const NYQUIST_FRACTION := 0.49
  const BW_MIN := 0.01
  const BW_MAX := 4.0
  const GAIN_MAX := 4.0
  const SHELF_GAIN_MIN := 0.000001
  const SHELF_SLOPE_MAX := 1.2
  const RAMP_DB_MIN := -120.0

  datatype Maths = Maths(
    pi: real, ln2: real,
    tan: real -> real, sin: real -> real, cos: real -> real, sinh: real -> real,
    sqrt: real -> real, log2: real -> real, log10: real -> real, exp2: real -> real, pow10: real -> real)
  {
    ghost predicate Sound() {
      && pi > 0.0
      && ln2 > 0.0
      && (forall x :: x >= 0.0 ==> sqrt(x) >= 0.0 && sqrt(x) * sqrt(x) == x)
      && sqrt(0.0) == 0.0
      && (forall x :: x >= 0.0 ==> sinh(x) >= 0.0)
      && (forall x :: 0.0 < x < pi ==> sin(x) > 0.0)
      && (forall x :: 0.0 < x < pi / 2.0 ==> tan(x) > 0.0)
      && (forall x :: exp2(x) > 0.0)
      && (forall x :: pow10(x) > 0.0)
    }

    /** What tells one width from another: the hyperbolic sine grows, the sine stays below 1. */
    ghost predicate Strict() {
      && (forall x, y :: 0.0 <= x < y ==> sinh(x) < sinh(y))
      && (forall x :: sin(x) <= 1.0)
    }

    /** The exponentials grow and undo the logarithms. */
    ghost predicate Inverse() {
      && (forall x :: x > 0.0 ==> exp2(log2(x)) == x && pow10(log10(x)) == x)
      && (forall x, y :: x <= y ==> exp2(x) <= exp2(y))
      && (forall x, y :: x <= y ==> pow10(x) <= pow10(y))
      && pow10(-6.0) == 0.000001
    }

    /** The half-angle identities at `x`: sine and cosine of the double angle from the tangent. */
    ghost predicate HalfAngle(x: real) {
      var t := tan(x);
      && cos(2.0 * x) * (1.0 + t * t) == 1.0 - t * t
      && sin(2.0 * x) * (1.0 + t * t) == 2.0 * t
    }

    ghost predicate HalfAngles() {
      forall x :: 0.0 < x < pi / 2.0 ==> HalfAngle(x)
    }
  }

  function Min(a: real, b: real): real {
    if a <= b then a else b
  }

  function Max(a: real, b: real): real {
    if a >= b then a else b
  }

  function Clamp(x: real, lo: real, hi: real): real {
    Max(lo, Min(x, hi))
  }

  // ----- the effective values

  function EffectiveFreq(b: Band, fs: real): real {
    Min(Clamp(b.freqHz, FREQ_MIN, FREQ_MAX), NYQUIST_FRACTION * fs)
  }

  function EffectiveBw(b: Band): (bw: real)
    ensures BW_MIN <= bw <= BW_MAX
  {
    Clamp(b.bwOct, BW_MIN, BW_MAX)
  }

  /** Half of the angular frequency, the angle whose tangent is the filter's g. */
  function HalfOmega(m: Maths, b: Band, fs: real): (w: real)
    requires m.Sound() && fs > 0.0
    ensures 0.0 < w < m.pi / 2.0
  {
    EffectiveRange(b, fs);
    AngleOf(m.pi, EffectiveFreq(b, fs), fs)
  }

  function AngleOf(pi: real, f: real, fs: real): (w: real)
    requires pi > 0.0 && fs > 0.0 && 0.0 < f <= NYQUIST_FRACTION * fs
    ensures 0.0 < w < pi / 2.0
  {
    HalfOmegaRange(pi, f, fs);
    pi * f / fs
  }

  lemma EffectiveRange(b: Band, fs: real)
    requires fs > 0.0
    ensures 0.0 < EffectiveFreq(b, fs) <= NYQUIST_FRACTION * fs
  {
  }

  /** The band's angular frequency. */
  function Omega(m: Maths, b: Band, fs: real): real
    requires m.Sound() && fs > 0.0
  {
    2.0 * HalfOmega(m, b, fs)
  }

  lemma HalfOmegaRange(pi: real, f: real, fs: real)
    requires pi > 0.0 && fs > 0.0 && 0.0 < f <= NYQUIST_FRACTION * fs
    ensures 0.0 < pi * f / fs < pi / 2.0
  {
    var r := f / fs;
    assert r * fs == f;
    assert 0.0 < r <= NYQUIST_FRACTION;
    assert pi * f / fs == pi * r;
    assert pi * r <= pi * NYQUIST_FRACTION;
  }

  /** ln2/2 · bandwidth · warp, whose hyperbolic sine sets a high-pass or peak's width. */
  function Width(m: Maths, b: Band, fs: real): (w: real)
    requires m.Sound() && fs > 0.0
    ensures w >= 0.0
  {
    var w0 := Omega(m, b, fs);
    var warp := if w0 <= m.pi / 2.0 then w0 / m.sin(w0) else m.pi / 2.0;
    assert warp >= 0.0;
    NonNegativeProduct(m.ln2 / 2.0, EffectiveBw(b));
    NonNegativeProduct(m.ln2 / 2.0 * EffectiveBw(b), warp);
    m.ln2 / 2.0 * EffectiveBw(b) * warp
  }

  /** 1/Q of a high-pass or peak band. */
  function InverseQ(m: Maths, b: Band, fs: real): (q: real)
    requires m.Sound() && fs > 0.0
    ensures q >= 0.0
  {
    2.0 * m.sinh(Width(m, b, fs))
  }

  /** A, the square root of the gain a shelf works with. */
  function ShelfA(m: Maths, b: Band): (a: real)
    requires m.Sound()
    ensures a > 0.0 && a * a == Max(Min(b.gainLin, GAIN_MAX), SHELF_GAIN_MIN)
  {
    m.sqrt(Max(Min(b.gainLin, GAIN_MAX), SHELF_GAIN_MIN))
  }

  function ShelfSlope(b: Band): (s: real)
    ensures 0.0 < s <= SHELF_SLOPE_MAX
  {
    var bw := EffectiveBw(b);
    assert bw * bw > 0.0;
    Min(1.0 / (bw * bw), SHELF_SLOPE_MAX)
  }

  /** The cookbook's radicand for a shelf of slope s: (A + 1/A)(1/S − 1) + 2. */
  function ShelfRadicand(m: Maths, b: Band): real
    requires m.Sound()
  {
    var a := ShelfA(m, b);
    (a + 1.0 / a) * (1.0 / ShelfSlope(b) - 1.0) + 2.0
  }

  function ShelfK(m: Maths, b: Band): (k: real)
    requires m.Sound()
    ensures k >= 0.0
  {
    m.sqrt(Max(ShelfRadicand(m, b), 0.0))
  }

  lemma PositiveRoot(m: Maths, x: real)
    requires m.Sound() && x > 0.0
    ensures m.sqrt(x) > 0.0
  {
  }

  function PassiveFilter(g: real, k: real, m0: real, m1: real, m2: real): (c: Coefs)
    requires g > 0.0 && k >= 0.0
    ensures c.Passive() && c.g == g && c.k == k && c.m0 == m0 && c.m1 == m1 && c.m2 == m2
  {
    DenominatorPositive(g, k);
    Filter(g, k, m0, m1, m2)
  }

  function DesignHighPass(g: real, q: real): (c: Coefs)
    requires g > 0.0 && q >= 0.0
    ensures c.Passive() && c.g == g && c.k == q
  {
    PassiveFilter(g, q, 1.0, -q, -1.0)
  }

  function DesignNotch(g: real, q: real): (c: Coefs)
    requires g > 0.0 && q >= 0.0
    ensures c.Passive() && c.g == g && c.k == q
  {
    PassiveFilter(g, q, 1.0, -q, 0.0)
  }

  function DesignPeak(g: real, q: real, a: real): (c: Coefs)
    requires g > 0.0 && q >= 0.0 && a > 0.0
    ensures c.Passive() && c.g == g
  {
    var k := q / a;
    PassiveFilter(g, k, 1.0, k * (a * a - 1.0), 0.0)
  }

  function DesignLowShelf(g: real, k: real, a: real, r: real): (c: Coefs)
    requires g > 0.0 && k >= 0.0 && r > 0.0
    ensures c.Passive() && c.g > 0.0 && c.k == k
  {
    PassiveFilter(g / r, k, 1.0, k * (a - 1.0), a * a - 1.0)
  }

  function DesignHighShelf(g: real, k: real, a: real, r: real): (c: Coefs)
    requires g > 0.0 && k >= 0.0 && r > 0.0
    ensures c.Passive() && c.g > 0.0 && c.k == k
  {
    PassiveFilter(g * r, k, a * a, k * (1.0 - a) * a, 1.0 - a * a)
  }

  /** The band's filter. */
  function Design(m: Maths, b: Band, fs: real): (c: Coefs)
    requires m.Sound() && b.Valid() && fs > 0.0
    ensures c.Passive() && c.g > 0.0
  {
    var g := m.tan(HalfOmega(m, b, fs));
    match b.kind
    case HighPass => DesignHighPass(g, InverseQ(m, b, fs))
    case Peak =>
      var gain := Min(b.gainLin, GAIN_MAX);
      if gain <= 0.0 then DesignNotch(g, InverseQ(m, b, fs))
      else
        PositiveRoot(m, gain);
        DesignPeak(g, InverseQ(m, b, fs), m.sqrt(gain))
    case LowShelf =>
      PositiveRoot(m, ShelfA(m, b));
      DesignLowShelf(g, ShelfK(m, b), ShelfA(m, b), m.sqrt(ShelfA(m, b)))
    case HighShelf =>
      PositiveRoot(m, ShelfA(m, b));
      DesignHighShelf(g, ShelfK(m, b), ShelfA(m, b), m.sqrt(ShelfA(m, b)))
  }

  predicate IsShelf(b: Band) {
    b.kind.LowShelf? || b.kind.HighShelf?
  }

  /** When a designed shelf is undamped: exactly when the cookbook's radicand is not
      positive, which a steep, deeply cut shelf reaches (see `SteepCutIsUndamped`). */
  lemma ShelfDamped(m: Maths, b: Band, fs: real)
    requires m.Sound() && b.Valid() && fs > 0.0
    requires IsShelf(b)
    ensures Design(m, b, fs).k == ShelfK(m, b)
    ensures Design(m, b, fs).k > 0.0 <==> ShelfRadicand(m, b) > 0.0
  {
    hide Coefs.Passive, HalfOmega, InverseQ, ShelfRadicand, ShelfA, DesignLowShelf, DesignHighShelf;
    if ShelfRadicand(m, b) > 0.0 {
      PositiveRoot(m, ShelfRadicand(m, b));
    } else {
      assert m.sqrt(0.0) == 0.0;
    }
  }

  /** Which bands are damped: every high-pass, notch and peak, and the shelves whose radicand
      is positive. */
  lemma DampedExactly(m: Maths, b: Band, fs: real)
    requires m.Sound() && m.Strict() && b.Valid() && fs > 0.0
    ensures Design(m, b, fs).k > 0.0 <==> !IsShelf(b) || ShelfRadicand(m, b) > 0.0
  {
    if IsShelf(b) {
      ShelfDamped(m, b, fs);
    } else {
      InverseQPositive(m, b, fs);
      hide Maths.Strict, Coefs.Passive, HalfOmega, InverseQ, ShelfRadicand, ShelfA;
      var gain := Min(b.gainLin, GAIN_MAX);
      if b.kind.Peak? && gain > 0.0 {
        PositiveRoot(m, gain);
        PositiveQuotient(InverseQ(m, b, fs), m.sqrt(gain));
      }
    }
  }

  lemma PositiveQuotient(q: real, a: real)
    requires q > 0.0 && a > 0.0
    ensures q / a > 0.0
  {
  }

  lemma InverseQPositive(m: Maths, b: Band, fs: real)
    requires m.Sound() && m.Strict() && fs > 0.0
    ensures InverseQ(m, b, fs) > 0.0
  {
    WidthPositive(m, b, fs);
    assert m.sinh(0.0) >= 0.0 && m.sinh(0.0) < m.sinh(Width(m, b, fs));
  }

  lemma WidthPositive(m: Maths, b: Band, fs: real)
    requires m.Sound() && fs > 0.0
    ensures Width(m, b, fs) > 0.0
  {
    var w0 := Omega(m, b, fs);
    var warp := if w0 <= m.pi / 2.0 then w0 / m.sin(w0) else m.pi / 2.0;
    if w0 <= m.pi / 2.0 {
      PositiveQuotient(w0, m.sin(w0));
    }
    hide HalfOmega;
    assert m.ln2 / 2.0 * EffectiveBw(b) > 0.0;
    ProductPositive(m.ln2 / 2.0 * EffectiveBw(b), warp);
  }

  /** At slope 1.2 (bandwidth at most 0.9 octaves) every shelf cut to gain 1/256 or below
      (about −48 dB) is undamped: it keeps ringing on silence. */
  lemma SteepCutIsUndamped(m: Maths, b: Band, fs: real)
    requires m.Sound() && b.Valid() && fs > 0.0
    requires IsShelf(b)
    requires b.bwOct <= 0.9 && b.gainLin <= 1.0 / 256.0
    ensures Design(m, b, fs).k == 0.0
  {
    hide Coefs.Passive, Maths.Sound, Design, ShelfSlope;
    ShelfDamped(m, b, fs);
    SteepSlope(b);
    SteepRadicand(ShelfA(m, b));
  }

  /** Such a shelf has no bound at all on input that stays within full scale: unless its
      frequency is so low that a sample drowns in the flush, some input that never exceeds 1
      takes its state past any energy. */
  lemma SteepCutIsUnbounded(m: Maths, b: Band, fs: real, bound: real) returns (run: seq<Sample>)
    requires m.Sound() && b.Valid() && fs > 0.0
    requires IsShelf(b)
    requires b.bwOct <= 0.9 && b.gainLin <= 1.0 / 256.0 && Push(Design(m, b, fs)) > 0.0
    ensures FullScale(run, Design(m, b, fs)) && Energy(RunState(ZERO, run)) > bound
  {
    hide *;
    SteepCutIsUndamped(m, b, fs);
    run := UndampedIsUnbounded(Design(m, b, fs), bound);
  }

  lemma SteepSlope(b: Band)
    requires b.bwOct <= 0.9
    ensures ShelfSlope(b) == SHELF_SLOPE_MAX
  {
    var bw := EffectiveBw(b);
    SquareBound(bw, 0.9);
    DivideBound(SHELF_SLOPE_MAX, bw * bw, 1.0);
  }

  lemma SquareBound(x: real, y: real)
    requires 0.0 <= x <= y
    ensures x * x <= y * y
  {
  }

  lemma SteepRadicand(a: real)
    requires a > 0.0 && a * a <= 1.0 / 256.0
    ensures (a + 1.0 / a) * (1.0 / SHELF_SLOPE_MAX - 1.0) + 2.0 <= 0.0
  {
    assert a <= 1.0 / 16.0;
    DivideBound(16.0, a, 1.0);
    var w := 1.0 / SHELF_SLOPE_MAX - 1.0;
    assert w <= -0.16;
    assert (a + 1.0 / a) * w <= 16.0 * w;
  }

  // ----- the keys the parameter ramps move in

  function FreqKey(m: Maths, b: Band): real {
    m.log2(Max(b.freqHz, FREQ_MIN))
  }

  function GainKey(m: Maths, b: Band): real {
    if b.gainLin > 0.0 then Max(20.0 * m.log10(b.gainLin), RAMP_DB_MIN) else RAMP_DB_MIN
  }

  function BwKey(m: Maths, b: Band): real {
    m.log2(Max(b.bwOct, BW_MIN))
  }

  /** The band on its way: the target's kind at the ramps' present values. */
  function Interpolated(m: Maths, target: Band, freq: real, db: real, bw: real): (b: Band)
    requires m.Sound()
    ensures b.Valid() && b.kind == target.kind
  {
    target.(freqHz := m.exp2(freq), gainLin := m.pow10(db / 20.0), bwOct := m.exp2(bw))
  }
}
