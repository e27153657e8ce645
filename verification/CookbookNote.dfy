/**
When a band is the filter of the Audio EQ Cookbook note itself, with the note's own alpha:
sin w0 · sinh(ln2/2 · bandwidth · w0/sin w0) for a bandwidth, and
sin w0 / 2 · √((A + 1/A)(1/S − 1) + 2) for a shelf's slope, which is none at all when the
term under the root is negative. `Rbj.EveryKindIsCookbook` says which filter a band is at
every setting; here it is decided when that is the note's.
*/
module CookbookNote {
  import opened Options
  import opened Svf
  import opened Designs
  import opened Rbj

  /** The note's alpha for a band. */
  function NoteAlpha(m: Maths, b: Band, fs: real): Option<real>
    requires m.Sound() && fs > 0.0
  {
    var w0 := SetAngle(m, b, fs);
    AngleIsSet(m, b, fs);
    if !IsShelf(b) then Some(BandAlpha(m, w0, OctaveWidth(m, SetOctaves(b.bwOct), w0 / m.sin(w0))))
    else
      var term := SlopeTerm(SetA(m, b), SetSlope(b.bwOct));
      if term < 0.0 then None else Some(SlopeAlpha(m, w0, term))
  }

  /** The band answers every input, from rest and unflushed, as the note's filter does. */
  ghost predicate IsNote(m: Maths, b: Band, fs: real)
    requires m.Sound() && b.Valid() && fs > 0.0
  {
    NoteAlpha(m, b, fs).Some? && forall xs: seq<real> :: AnswersAs(m, b, fs, NoteAlpha(m, b, fs).value, xs)
  }

  ghost predicate AnswersAs(m: Maths, b: Band, fs: real, al: real, xs: seq<real>)
    requires m.Sound() && b.Valid() && fs > 0.0
  {
    Unflushable(Design(m, b, fs), ZERO, xs) ==>
      var q := Cookbook(m, b, fs, al);
      q.a0 != 0.0 && Response(Design(m, b, fs), ZERO, xs) == DirectForm(q, SILENT, xs)
  }

  /** A band's settings at which the alpha it uses is the note's, or does not matter: an angle
      up to π/2 for a high-pass, notch or peak, a flat peak at any angle, and a slope term that
      is not negative for a shelf. */
  predicate Covered(m: Maths, b: Band, fs: real)
    requires m.Sound() && fs > 0.0
  {
    match b.kind
    case HighPass => SetAngle(m, b, fs) <= m.pi / 2.0
    case Peak => SetAngle(m, b, fs) <= m.pi / 2.0 || b.gainLin == 1.0
    case LowShelf => SlopeTerm(SetA(m, b), SetSlope(b.bwOct)) >= 0.0
    case HighShelf => SlopeTerm(SetA(m, b), SetSlope(b.bwOct)) >= 0.0
  }

  /** A band is the note's filter exactly at those settings. */
  lemma NoteExactly(m: Maths, b: Band, fs: real)
    requires m.Sound() && m.Strict() && b.Valid() && fs > 0.0 && m.HalfAngles()
    ensures IsNote(m, b, fs) <==> Covered(m, b, fs)
  {
    hide *;
    SameAlpha(m, b, fs);
    CoveredIs(m, b, fs);
    if !IsShelf(b) {
      WiderThanUsed(m, b, fs);
    }
    if NoteAlpha(m, b, fs) == Some(UsedAlpha(m, b, fs)) {
      UsedIsNote(m, b, fs);
    } else if IsShelf(b) {
      NoNote(m, b, fs);
    } else {
      WiderIsNote(m, b, fs, NoteAlpha(m, b, fs).value);
    }
  }

  /** Covered: the alphas agree, or the peak is flat. */
  lemma CoveredIs(m: Maths, b: Band, fs: real)
    requires m.Sound() && fs > 0.0
    ensures IsShelf(b) ==> (Covered(m, b, fs) <==> SlopeTerm(SetA(m, b), SetSlope(b.bwOct)) >= 0.0)
    ensures !IsShelf(b) ==>
              (Covered(m, b, fs) <==> SetAngle(m, b, fs) <= m.pi / 2.0 || (b.kind.Peak? && b.gainLin == 1.0))
  {
    hide Maths.Sound, Omega, SlopeTerm, ShelfA, ShelfSlope;
  }

  lemma UsedIsNote(m: Maths, b: Band, fs: real)
    requires m.Sound() && b.Valid() && fs > 0.0 && m.HalfAngles()
    requires NoteAlpha(m, b, fs) == Some(UsedAlpha(m, b, fs))
    ensures IsNote(m, b, fs)
  {
    hide Maths.Sound, NoteAlpha, UsedAlpha, AnswersAs, HalfOmega;
    forall xs: seq<real> ensures AnswersAs(m, b, fs, UsedAlpha(m, b, fs), xs) {
      UsedAnswers(m, b, fs, xs);
    }
  }

  lemma NoNote(m: Maths, b: Band, fs: real)
    requires m.Sound() && b.Valid() && fs > 0.0
    ensures NoteAlpha(m, b, fs) == None ==> !IsNote(m, b, fs)
  {
    hide Maths.Sound, NoteAlpha, AnswersAs;
  }

  lemma WiderIsNote(m: Maths, b: Band, fs: real, al: real)
    requires m.Sound() && b.Valid() && fs > 0.0 && m.HalfAngles() && !IsShelf(b)
    requires NoteAlpha(m, b, fs) == Some(al) && 0.0 <= UsedAlpha(m, b, fs) < al
    ensures IsNote(m, b, fs) <==> b.kind.Peak? && b.gainLin == 1.0
  {
    hide Maths.Sound, NoteAlpha, UsedAlpha, AnswersAs, HalfOmega, Band.Valid, Maths.HalfAngles;
    if b.kind.Peak? && b.gainLin == 1.0 {
      forall xs: seq<real> ensures AnswersAs(m, b, fs, al, xs) {
        FlatPeak(m, b, fs, al, xs);
      }
    } else {
      AnotherAlphaShows(m, b, fs, al);
    }
  }

  lemma UsedAnswers(m: Maths, b: Band, fs: real, xs: seq<real>)
    requires m.Sound() && b.Valid() && fs > 0.0 && m.HalfAngles()
    ensures AnswersAs(m, b, fs, UsedAlpha(m, b, fs), xs)
  {
    hide Maths.Sound, Maths.HalfAngles, Design, Cookbook, UsedAlpha, Unflushable, Response, DirectForm, HalfOmega,
      Band.Valid;
    if Unflushable(Design(m, b, fs), ZERO, xs) {
      EveryKindIsCookbook(m, b, fs, xs);
    }
  }

  // ----- the two alphas

  lemma SameAlpha(m: Maths, b: Band, fs: real)
    requires m.Sound() && fs > 0.0
    ensures !IsShelf(b) ==> NoteAlpha(m, b, fs).Some?
    ensures !IsShelf(b) && SetAngle(m, b, fs) <= m.pi / 2.0 ==> NoteAlpha(m, b, fs) == Some(UsedAlpha(m, b, fs))
    ensures IsShelf(b) ==>
              NoteAlpha(m, b, fs) ==
              if SlopeTerm(SetA(m, b), SetSlope(b.bwOct)) >= 0.0 then Some(UsedAlpha(m, b, fs)) else None
  {
    hide HalfOmega, EffectiveBw, ShelfA, ShelfSlope, OctaveWidth, SlopeTerm;
  }

  /** Above π/2 the note's alpha is larger than the one a band uses; both are 0 or more. */
  lemma WiderThanUsed(m: Maths, b: Band, fs: real)
    requires m.Sound() && m.Strict() && fs > 0.0 && !IsShelf(b)
    ensures SetAngle(m, b, fs) > m.pi / 2.0 ==>
              NoteAlpha(m, b, fs).Some? && 0.0 <= UsedAlpha(m, b, fs) < NoteAlpha(m, b, fs).value
  {
    var w0, bw := SetAngle(m, b, fs), SetOctaves(b.bwOct);
    if w0 > m.pi / 2.0 {
      AngleIsSet(m, b, fs);
      hide SetAngle, SetOctaves, HalfOmega, Omega, SetA, SetSlope, SlopeTerm, SetGain;
      var sn, warp := m.sin(w0), w0 / m.sin(w0);
      assert 0.0 < sn <= 1.0;
      WarpGrows(w0, sn, m.pi / 2.0);
      WiderWidth(m, bw, m.pi / 2.0, warp);
      var x, y := OctaveWidth(m, bw, m.pi / 2.0), OctaveWidth(m, bw, warp);
      hide OctaveWidth;
      assert 0.0 <= m.sinh(x) < m.sinh(y);
      LargerProduct(sn, m.sinh(x), m.sinh(y));
    }
  }

  lemma WarpGrows(w0: real, sn: real, half: real)
    requires 0.0 < sn <= 1.0 && w0 > half > 0.0
    ensures w0 / sn > half
  {
    assert w0 / sn * sn == w0;
    if w0 / sn <= half {
      LargerOrEqual(sn, w0 / sn, half);
      LargerOrEqual(half, sn, 1.0);
    }
  }

  lemma LargerOrEqual(s: real, x: real, y: real)
    requires s > 0.0 && x <= y
    ensures s * x <= s * y
  {
  }

  lemma LargerProduct(s: real, x: real, y: real)
    requires s > 0.0 && 0.0 <= x < y
    ensures 0.0 <= s * x < s * y
  {
  }

  lemma WiderWidth(m: Maths, bw: real, narrow: real, wide: real)
    requires m.ln2 > 0.0 && bw > 0.0 && 0.0 < narrow < wide
    ensures 0.0 <= OctaveWidth(m, bw, narrow) < OctaveWidth(m, bw, wide)
  {
    PositiveProduct(bw, m.ln2 / 2.0);
    LargerProduct(m.ln2 / 2.0 * bw, narrow, wide);
  }

  // ----- where the alpha does not matter

  /** A flat peak passes its input, whatever its alpha. */
  lemma FlatPeak(m: Maths, b: Band, fs: real, al: real, xs: seq<real>)
    requires m.Sound() && b.Valid() && fs > 0.0 && m.HalfAngles()
    requires b.kind.Peak? && b.gainLin == 1.0 && al >= 0.0
    ensures AnswersAs(m, b, fs, al, xs)
  {
    var c, used := m.cos(SetAngle(m, b, fs)), UsedAlpha(m, b, fs);
    UsedIsNotNegative(m, b, fs);
    RootOfOne(m);
    assert Cookbook(m, b, fs, al) == CookbookPeak(c, al, 1.0) && Cookbook(m, b, fs, used) == CookbookPeak(c, used, 1.0);
    hide Maths.Sound, Maths.HalfAngles, Design, UsedAlpha, Unflushable, Response, HalfOmega, Cookbook, DirectForm;
    FlatPasses(c, al, SILENT, xs);
    FlatPasses(c, used, SILENT, xs);
    UsedAnswers(m, b, fs, xs);
  }

  lemma UsedIsNotNegative(m: Maths, b: Band, fs: real)
    requires m.Sound() && fs > 0.0 && !IsShelf(b)
    ensures UsedAlpha(m, b, fs) >= 0.0
  {
    AlphaIs(m, b, fs);
    var sn, q := m.sin(Omega(m, b, fs)), InverseQ(m, b, fs);
    assert sn > 0.0 && q >= 0.0;
    hide *;
    NonNegativeProduct(sn, q);
  }

  lemma RootOfOne(m: Maths)
    requires m.Sound()
    ensures m.sqrt(1.0) == 1.0
  {
    var r := m.sqrt(1.0);
    assert r >= 0.0 && r * r == 1.0;
    hide Maths.Sound;
    if r > 1.0 {
      LargerProduct(r, 1.0, r);
    } else if r < 1.0 {
      LargerOrEqual(1.0, r * r, r);
    }
  }

  lemma {:induction false} FlatPasses(c: real, al: real, p: Past, xs: seq<real>)
    requires al >= 0.0 && p.x1 == p.y1 && p.x2 == p.y2
    ensures CookbookPeak(c, al, 1.0).a0 != 0.0 && DirectForm(CookbookPeak(c, al, 1.0), p, xs) == xs
    decreases |xs|
  {
    var q := CookbookPeak(c, al, 1.0);
    if xs != [] {
      assert Numerator(q, p, xs[0]) == q.a0 * xs[0];
      Quotient(q.a0, xs[0]);
      assert Numerator(q, p, xs[0]) / q.a0 == xs[0];
      hide CookbookPeak, Numerator;
      FlatPasses(c, al, Past(xs[0], p.x1, xs[0], p.y1), xs[1..]);
      assert [xs[0]] + xs[1..] == xs;
    }
  }

  // ----- where it does

  /** With another alpha the first output of one input already differs. */
  lemma AnotherAlphaShows(m: Maths, b: Band, fs: real, al: real)
    requires m.Sound() && b.Valid() && fs > 0.0 && m.HalfAngles() && !IsShelf(b)
    requires 0.0 <= UsedAlpha(m, b, fs) < al && !(b.kind.Peak? && b.gainLin == 1.0)
    ensures exists xs :: !AnswersAs(m, b, fs, al, xs)
  {
    hide *;
    var x := LoudSample(Design(m, b, fs));
    var q, r := Cookbook(m, b, fs, UsedAlpha(m, b, fs)), Cookbook(m, b, fs, al);
    UsedAnswers(m, b, fs, [x]);
    FirstDiffers(m, b, fs, UsedAlpha(m, b, fs), al);
    FirstOutput(q, x);
    FirstOutput(r, x);
    OutputsDiffer(q.b0, q.a0, r.b0, r.a0, x);
    assert DirectForm(q, SILENT, [x])[0] != DirectForm(r, SILENT, [x])[0];
    OneAnswer(m, b, fs, UsedAlpha(m, b, fs), al, [x]);
  }

  lemma OneAnswer(m: Maths, b: Band, fs: real, al: real, other: real, xs: seq<real>)
    requires m.Sound() && b.Valid() && fs > 0.0 && Unflushable(Design(m, b, fs), ZERO, xs)
             && AnswersAs(m, b, fs, al, xs)
    requires Cookbook(m, b, fs, al).a0 != 0.0 && Cookbook(m, b, fs, other).a0 != 0.0
    requires DirectForm(Cookbook(m, b, fs, al), SILENT, xs) != DirectForm(Cookbook(m, b, fs, other), SILENT, xs)
    ensures !AnswersAs(m, b, fs, other, xs)
  {
    hide Maths.Sound, Design, Cookbook, Unflushable, Response, DirectForm, Band.Valid;
  }

  /** An input whose first states are far above the flush. */
  lemma LoudSample(c: Coefs) returns (x: real)
    requires c.Passive() && c.g > 0.0
    ensures x != 0.0 && Unflushable(c, ZERO, [x])
  {
    hide *;
    GainsPositive(c);
    x := 1.0 / c.a2 + 1.0 / c.a3;
    LoudIs(c.a2, c.a3);
    OneLoudSample(c, x);
  }

  lemma GainsPositive(c: Coefs)
    requires c.Passive() && c.g > 0.0
    ensures c.a2 > 0.0 && c.a3 > 0.0
  {
    DenominatorPositive(c.g, c.k);
    hide Denominator;
    assert c.a1 > 0.0;
  }

  lemma LoudIs(a: real, b: real)
    requires a > 0.0 && b > 0.0
    ensures var x := 1.0 / a + 1.0 / b; x > 0.0 && a * x >= 1.0 && b * x >= 1.0
  {
    var p, q := 1.0 / a, 1.0 / b;
    assert p > 0.0 && q > 0.0 && a * p == 1.0 && b * q == 1.0;
    PositiveProduct(q, a);
    PositiveProduct(p, b);
    assert a * (p + q) == a * p + a * q && b * (p + q) == b * p + b * q;
  }

  lemma OneLoudSample(c: Coefs, x: real)
    requires c.a2 * x >= 1.0 && c.a3 * x >= 1.0
    ensures Unflushable(c, ZERO, [x])
  {
    var n := Unflushed(c, ZERO, x);
    assert n.ic1 == 2.0 * (c.a2 * x) && n.ic2 == 2.0 * (c.a3 * x);
    assert [x][1..] == [];
  }

  lemma FirstOutput(q: Biquad, x: real)
    requires q.a0 != 0.0
    ensures DirectForm(q, SILENT, [x]) == [q.b0 * x / q.a0]
  {
    assert [x][1..] == [];
    assert Numerator(q, SILENT, x) == q.b0 * x;
  }

  lemma OutputsDiffer(b: real, a: real, b': real, a': real, x: real)
    requires a != 0.0 && a' != 0.0 && x != 0.0 && b * a' != b' * a
    ensures b * x / a != b' * x / a'
  {
    var y, y' := b * x / a, b' * x / a';
    assert y * a == b * x && y' * a' == b' * x;
    if y == y' {
      SameRatio(b, a, b', a', x, y);
    }
  }

  lemma SameRatio(b: real, a: real, b': real, a': real, x: real, y: real)
    requires y * a == b * x && y * a' == b' * x && x != 0.0
    ensures b * a' == b' * a
  {
    assert (b * x) * a' == (b' * x) * a by {
      assert (y * a) * a' == (y * a') * a;
    }
    assert (b * a') * x == (b' * a) * x;
    Quotient(x, b * a');
    Quotient(x, b' * a);
  }

  /** The ratio b0 : a0 of a high-pass, a notch or a peak that is not flat tells its alpha. */
  lemma FirstDiffers(m: Maths, b: Band, fs: real, al: real, other: real)
    requires m.Sound() && b.Valid() && fs > 0.0 && m.HalfAngles() && !IsShelf(b)
    requires 0.0 <= al < other && !(b.kind.Peak? && b.gainLin == 1.0)
    ensures var q, r := Cookbook(m, b, fs, al), Cookbook(m, b, fs, other);
            q.a0 != 0.0 && r.a0 != 0.0 && q.b0 * r.a0 != r.b0 * q.a0
  {
    hide Maths.Sound, Maths.HalfAngles, Cookbook, Omega, SetAngle, HalfOmega, HalfTangent, SetGain, Band.Valid;
    var c := m.cos(SetAngle(m, b, fs));
    var q, r := Cookbook(m, b, fs, al), Cookbook(m, b, fs, other);
    Angle(m, b, fs);
    AngleIsSet(m, b, fs);
    CosineAbove(m.tan(HalfOmega(m, b, fs)), c, m.sin(SetAngle(m, b, fs)));
    FirstOf(m, b, fs, al);
    FirstOf(m, b, fs, other);
    if b.kind.HighPass? {
      HighPassDiffers(q.b0, q.a0, r.b0, r.a0, al, other);
    } else if SetGain(b.gainLin) > 0.0 {
      GainRoot(m, b);
      PeakDiffers(m.sqrt(SetGain(b.gainLin)), al, other);
    }
  }

  /** The coefficients b0 and a0. */
  lemma FirstOf(m: Maths, b: Band, fs: real, al: real)
    requires m.Sound() && b.Valid() && fs > 0.0 && !IsShelf(b) && al >= 0.0
    ensures var q, c, gain := Cookbook(m, b, fs, al), m.cos(SetAngle(m, b, fs)), SetGain(b.gainLin);
            && (b.kind.HighPass? ==> q.b0 == (1.0 + c) / 2.0 && q.a0 == 1.0 + al)
            && (!b.kind.HighPass? && gain <= 0.0 ==> q.b0 == 1.0 && q.a0 == 1.0 + al)
            && (!b.kind.HighPass? && gain > 0.0 ==>
               m.sqrt(gain) > 0.0 && q.b0 == 1.0 + al * m.sqrt(gain) && q.a0 == 1.0 + al / m.sqrt(gain))
  {
    if SetGain(b.gainLin) > 0.0 {
      PositiveRoot(m, SetGain(b.gainLin));
    }
    hide Maths.Sound, Omega, Min;
  }

  lemma GainRoot(m: Maths, b: Band)
    requires m.Sound() && SetGain(b.gainLin) > 0.0 && b.gainLin != 1.0
    ensures var a := m.sqrt(SetGain(b.gainLin)); a > 0.0 && a != 1.0
  {
    PositiveRoot(m, SetGain(b.gainLin));
  }

  lemma CosineAbove(g: real, c: real, sn: real)
    requires HalfTangent(g, c, sn)
    ensures 1.0 + c > 0.0
  {
    var d := 1.0 + g * g;
    assert d >= 1.0;
    assert (1.0 + c) * d == 2.0;
    if 1.0 + c <= 0.0 {
      LargerOrEqual(d, 1.0 + c, 0.0);
    }
  }

  lemma HighPassDiffers(b: real, a: real, b': real, a': real, al: real, other: real)
    requires b' == b > 0.0 && a == 1.0 + al && a' == 1.0 + other && 0.0 <= al < other
    ensures b * a' != b' * a
  {
    LargerProduct(b, a, a');
  }

  lemma PeakDiffers(a: real, al: real, other: real)
    requires a > 0.0 && a != 1.0 && 0.0 <= al < other
    ensures 1.0 + al / a != 0.0 && 1.0 + other / a != 0.0
    ensures (1.0 + al * a) * (1.0 + other / a) != (1.0 + other * a) * (1.0 + al / a)
  {
    var p, q := al / a, other / a;
    assert p * a == al && q * a == other;
    assert p >= 0.0 && q > 0.0;
    var left, right := (1.0 + al * a) * (1.0 + q), (1.0 + other * a) * (1.0 + p);
    PeakCross(a, p, q, al, other);
    assert q - p != 0.0;
    assert a * a - 1.0 == (a - 1.0) * (a + 1.0);
    NonZeroProduct(a - 1.0, a + 1.0);
    NonZeroProduct(q - p, a * a - 1.0);
  }

  lemma PeakCross(a: real, p: real, q: real, al: real, other: real)
    requires al == p * a && other == q * a
    ensures (1.0 + al * a) * (1.0 + q) - (1.0 + other * a) * (1.0 + p) == -((q - p) * (a * a - 1.0))
  {
    var s := a * a;
    assert al * a == p * s && other * a == q * s;
    assert (1.0 + p * s) * (1.0 + q) == 1.0 + q + p * s + (p * q) * s;
    assert (1.0 + q * s) * (1.0 + p) == 1.0 + p + q * s + (p * q) * s;
    assert (q - p) * (s - 1.0) == q * s - p * s - q + p;
  }
}
