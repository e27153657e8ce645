/**
What a processed block is, said of the settings alone: each channel is the global gain times
the cascade, in band order, of the Audio EQ Cookbook's biquads in direct form, each blended
in by its band's wet ramp. The equalizer works sample by sample through all bands and
channels; the proof takes one channel's lane out of every band, and then turns the lanes'
order from sample by sample to band by band.
*/
module Cascades {
  import opened Reals
  import opened Ramps
  import opened Svf
  import opened Designs
  import opened Rbj
  import opened Bands
  import opened Equalizers

  // ----- the cascade

  /** The part `w` of `y` with the rest of `x`. */
  function Blend(w: real, x: real, y: real): real {
    Product(1.0 - w, x) + Product(w, y)
  }

  /** Sample by sample, blended by the ramp as it moves on. */
  function Blended(wet: RampState, xs: seq<real>, ys: seq<real>): (r: seq<real>)
    requires |xs| == |ys|
    ensures |r| == |xs|
  {
    seq(|xs|, i requires 0 <= i < |xs| => Blend(TickN(wet, i + 1).value, xs[i], ys[i]))
  }

  /** The cookbook's biquad of a band's settings. */
  function BiquadOf(e: Setup, b: Band): Biquad
    requires e.Ok() && b.Valid()
  {
    Cookbook(e.maths, b, e.rate, UsedAlpha(e.maths, b, e.rate))
  }

  function Filtered(e: Setup, b: Band, xs: seq<real>): (ys: seq<real>)
    requires e.Ok() && b.Valid() && BiquadOf(e, b).a0 != 0.0
    ensures |ys| == |xs|
  {
    DirectFormLength(BiquadOf(e, b), SILENT, xs);
    DirectForm(BiquadOf(e, b), SILENT, xs)
  }

  lemma {:induction false} DirectFormLength(q: Biquad, p: Past, xs: seq<real>)
    requires q.a0 != 0.0
    ensures |DirectForm(q, p, xs)| == |xs|
    decreases |xs|
  {
    hide Numerator;
    if xs != [] {
      DirectFormLength(q, Past(xs[0], p.x1, Numerator(q, p, xs[0]) / q.a0, p.y1), xs[1..]);
    }
  }

  ghost predicate Proper(e: Setup, bs: seq<BandState>)
    requires e.Ok()
  {
    forall i :: 0 <= i < |bs| ==> bs[i].target.Valid() && BiquadOf(e, bs[i].target).a0 != 0.0
  }

  /** The bands one after the other, each blended in by its wet ramp. */
  function Cascade(e: Setup, bs: seq<BandState>, xs: seq<real>): (r: seq<real>)
    requires e.Ok() && Proper(e, bs)
    ensures |r| == |xs|
  {
    if bs == [] then xs
    else Cascade(e, bs[1..], Blended(bs[0].wet, xs, Filtered(e, bs[0].target, xs)))
  }

  /** No filter on the way flushes a state. */
  ghost predicate Clear(e: Setup, bs: seq<BandState>, xs: seq<real>)
    requires e.Ok() && Proper(e, bs)
  {
    bs != [] ==>
      && (bs[0].Bypassed() || Unflushable(e.Design(bs[0].target), ZERO, xs))
      && Clear(e, bs[1..], Blended(bs[0].wet, xs, Filtered(e, bs[0].target, xs)))
  }

  // ----- one channel of one band

  datatype Lane = Lane(coefs: Coefs, wet: RampState, state: State)

  function LaneOf(b: BandState, ch: nat): Lane
    requires ch < |b.state|
  {
    Lane(b.coefs, b.wet, b.state[ch])
  }

  function Advanced(l: Lane): Lane {
    var w := l.wet.Tick();
    Lane(l.coefs, w, if w.value == 0.0 && !w.Moving() then ZERO else l.state)
  }

  function Told(l: Lane, x: real): Lane {
    if l.wet.value == 0.0 then l else l.(state := Next(l.coefs, l.state, x))
  }

  function Gives(l: Lane, x: real): real {
    Blend(l.wet.value, x, Output(l.coefs, l.state, x))
  }

  lemma BlendEnds(w: real, x: real, y: real)
    ensures Blend(w, x, y) == x + w * (y - x)
    ensures Blend(0.0, x, y) == x && Blend(1.0, x, y) == y
  {
  }

  /** A still band's advance, and its samples, seen in one lane. */
  lemma AdvancedLane(b: BandState, e: Setup, ch: nat)
    requires e.Ok() && b.Good(e) && !b.Moving() && ch < e.channels
    ensures var a := b.Advance(e);
            !a.Moving() && ch < |a.state| && LaneOf(a, ch) == Advanced(LaneOf(b, ch))
  {
    hide FreqKey, GainKey, BwKey, Setup.Design, Coefs.Passive, RampState.Tick, RampState.Valid;
  }

  lemma ToldLane(b: BandState, ch: nat, x: real)
    requires ch < |b.state|
    ensures b.Heard(ch, x) == Gives(LaneOf(b, ch), x)
    ensures |b.Ticked(ch, x).state| == |b.state| && LaneOf(b.Ticked(ch, x), ch) == Told(LaneOf(b, ch), x)
    ensures b.Ticked(ch, x).Moving() == b.Moving()
  {
    hide Next, Output;
    BlendEnds(b.wet.value, x, Output(b.coefs, b.state[ch], x));
    hide Blend;
  }

  lemma OtherLane(b: BandState, k: nat, x: real, ch: nat)
    requires ch < |b.state| && k != ch
    ensures |b.Ticked(k, x).state| == |b.state| && LaneOf(b.Ticked(k, x), ch) == LaneOf(b, ch)
    ensures b.Ticked(k, x).Moving() == b.Moving()
  {
    hide Next;
  }

  // ----- one channel of all bands

  ghost predicate Wide(bs: seq<BandState>, ch: nat) {
    forall i :: 0 <= i < |bs| ==> ch < |bs[i].state|
  }

  function Lanes(bs: seq<BandState>, ch: nat): (ls: seq<Lane>)
    requires Wide(bs, ch)
    ensures |ls| == |bs| && forall i :: 0 <= i < |bs| ==> ls[i] == LaneOf(bs[i], ch)
  {
    seq(|bs|, i requires 0 <= i < |bs| => LaneOf(bs[i], ch))
  }

  datatype LaneChain = LaneChain(lanes: seq<Lane>, x: real)

  function LaneThrough(ls: seq<Lane>, x: real): (c: LaneChain)
    ensures |c.lanes| == |ls|
  {
    if ls == [] then LaneChain([], x)
    else
      var rest := LaneThrough(ls[1..], Gives(ls[0], x));
      LaneChain([Told(ls[0], x)] + rest.lanes, rest.x)
  }

  lemma {:induction false} ThroughLanes(bs: seq<BandState>, ch: nat, x: real)
    requires Wide(bs, ch)
    ensures var t := Through(bs, ch, x);
            && Wide(t.bands, ch)
            && LaneChain(Lanes(t.bands, ch), t.x) == LaneThrough(Lanes(bs, ch), x)
  {
    hide BandState.Heard, BandState.Ticked, Told, Gives, LaneOf;
    if bs != [] {
      ToldLane(bs[0], ch, x);
      ThroughLanes(bs[1..], ch, bs[0].Heard(ch, x));
      assert Lanes(bs, ch)[1..] == Lanes(bs[1..], ch);
    }
  }

  lemma {:induction false} ThroughOtherLanes(bs: seq<BandState>, k: nat, x: real, ch: nat)
    requires Wide(bs, ch) && k != ch
    ensures Wide(Through(bs, k, x).bands, ch) && Lanes(Through(bs, k, x).bands, ch) == Lanes(bs, ch)
  {
    hide BandState.Heard, BandState.Ticked, LaneOf;
    if bs != [] {
      OtherLane(bs[0], k, x, ch);
      ThroughOtherLanes(bs[1..], k, bs[0].Heard(k, x), ch);
      assert Lanes(bs, ch)[1..] == Lanes(bs[1..], ch);
    }
  }

  lemma {:induction false} ChannelsLanes(bs: seq<BandState>, gain: real, frame: Frame, k: nat, ch: nat)
    requires Wide(bs, ch) && k <= |frame| && ch < |frame|
    ensures var r := Channels(bs, gain, frame, k);
            && Wide(r.bands, ch)
            && (k <= ch ==>
                  var t := LaneThrough(Lanes(bs, ch), frame[ch]);
                  Lanes(r.bands, ch) == t.lanes && r.out[ch - k] == Product(t.x, gain))
            && (k > ch ==> Lanes(r.bands, ch) == Lanes(bs, ch))
    decreases |frame| - k
  {
    hide Through, Product, Lanes, LaneThrough, Wide;
    if k < |frame| {
      if k == ch {
        ThroughLanes(bs, ch, frame[ch]);
      } else {
        ThroughOtherLanes(bs, k, frame[k], ch);
      }
      ChannelsLanes(Through(bs, k, frame[k]).bands, gain, frame, k + 1, ch);
    }
  }

  function AdvancedAll(ls: seq<Lane>): (r: seq<Lane>)
    ensures |r| == |ls|
  {
    seq(|ls|, i requires 0 <= i < |ls| => Advanced(ls[i]))
  }

  // ----- still equalizers

  /** No band's settings move; wet ramps and the global gain may. */
  ghost predicate Still(bs: seq<BandState>) {
    forall i :: 0 <= i < |bs| ==> !bs[i].Moving()
  }

  lemma AdvanceLanes(e: Setup, bs: seq<BandState>, ch: nat)
    requires e.Ok() && AllGood(e, bs) && Still(bs) && ch < e.channels
    requires forall i :: 0 <= i < |bs| ==> bs[i].target.Valid()
    ensures Wide(bs, ch) && Wide(AdvanceBands(e, bs), ch) && Still(AdvanceBands(e, bs))
    ensures Lanes(AdvanceBands(e, bs), ch) == AdvancedAll(Lanes(bs, ch))
  {
    assert Wide(bs, ch);
    hide BandState.Good, BandState.Advance, BandState.Moving, Setup.Ok, Advanced, LaneOf;
    forall i | 0 <= i < |bs|
      ensures var a := bs[i].Advance(e); !a.Moving() && ch < |a.state| && LaneOf(a, ch) == Advanced(LaneOf(bs[i], ch))
    {
      AdvancedLane(bs[i], e, ch);
    }
  }

  /** The same bands in everything but their filters' states. */
  ghost predicate SameButState(xs: seq<BandState>, ys: seq<BandState>) {
    |xs| == |ys| && forall i :: 0 <= i < |xs| ==> ys[i] == xs[i].(state := ys[i].state)
  }

  lemma {:induction false} ThroughKeeps(bs: seq<BandState>, k: nat, x: real)
    ensures SameButState(bs, Through(bs, k, x).bands)
  {
    hide Next, BandState.Heard;
    if bs != [] {
      ThroughKeeps(bs[1..], k, bs[0].Heard(k, x));
    }
  }

  lemma {:induction false} ChannelsKeep(bs: seq<BandState>, gain: real, frame: Frame, k: nat)
    requires k <= |frame|
    ensures SameButState(bs, Channels(bs, gain, frame, k).bands)
    decreases |frame| - k
  {
    hide Through, Product;
    if k < |frame| {
      ThroughKeeps(bs, k, frame[k]);
      ChannelsKeep(Through(bs, k, frame[k]).bands, gain, frame, k + 1);
    }
  }

  lemma StillKept(xs: seq<BandState>, ys: seq<BandState>)
    requires SameButState(xs, ys)
    ensures Still(xs) ==> Still(ys)
  {
  }

  lemma FrameLanes(e: Setup, s: EqState, frame: Frame, ch: nat)
    requires e.Ok() && s.Good(e) && Still(s.bands) && ch < e.channels && ch < |frame|
    ensures forall i :: 0 <= i < |s.bands| ==> s.bands[i].target.Valid()
    ensures Wide(s.bands, ch)
    ensures var row, t := ProcessFrame(e, s, frame), LaneThrough(AdvancedAll(Lanes(s.bands, ch)), frame[ch]);
            && Still(row.bands) && Wide(row.bands, ch) && Lanes(row.bands, ch) == t.lanes
            && |row.out| == |frame| && row.out[ch] == Product(t.x, s.global.Tick().value)
  {
    GoodTargets(e, s.bands);
    AdvanceLanes(e, s.bands, ch);
    hide BandState.Good, Setup.Ok, AdvanceBands, Channels, Still, Wide, Lanes, LaneThrough, AdvancedAll, RampState.Tick,
      Product, SameButState;
    var gain := s.global.Tick().value;
    ChannelsLanes(AdvanceBands(e, s.bands), gain, frame, 0, ch);
    ChannelsKeep(AdvanceBands(e, s.bands), gain, frame, 0);
    StillKept(AdvanceBands(e, s.bands), Channels(AdvanceBands(e, s.bands), gain, frame, 0).bands);
  }

  /** One channel, sample by sample through all its lanes. */
  function SampleBySample(ls: seq<Lane>, xs: seq<real>): (r: seq<real>)
    ensures |r| == |xs|
    decreases |xs|
  {
    if xs == [] then []
    else
      var t := LaneThrough(AdvancedAll(ls), xs[0]);
      [t.x] + SampleBySample(t.lanes, xs[1..])
  }

  predicate Reaches(frames: seq<Frame>, ch: nat) {
    forall i :: 0 <= i < |frames| ==> ch < |frames[i]|
  }

  function Column(frames: seq<Frame>, ch: nat): (xs: seq<real>)
    requires Reaches(frames, ch)
    ensures |xs| == |frames|
  {
    seq(|frames|, i requires 0 <= i < |frames| => frames[i][ch])
  }

  lemma {:induction false} TickNAfter(r: RampState, n: nat)
    ensures TickN(r.Tick(), n) == TickN(r, n + 1)
  {
    hide RampState.Tick;
    if n > 0 {
      TickNAfter(r, n - 1);
    }
  }

  /** Sample by sample, times the ramp as it moves on. */
  function Scaled(gain: RampState, ys: seq<real>): (r: seq<real>)
    ensures |r| == |ys|
  {
    seq(|ys|, i requires 0 <= i < |ys| => Product(ys[i], TickN(gain, i + 1).value))
  }

  lemma ScaledFirst(gain: RampState, ys: seq<real>)
    requires ys != []
    ensures Scaled(gain, ys) == [Product(ys[0], gain.Tick().value)] + Scaled(gain.Tick(), ys[1..])
  {
    hide RampState.Tick, Product;
    forall i | 0 < i < |ys| ensures Scaled(gain, ys)[i] == Scaled(gain.Tick(), ys[1..])[i - 1] {
      TickNAfter(gain, i);
    }
    assert TickN(gain, 0) == gain;
  }

  lemma ColumnFirst(frames: seq<Frame>, ch: nat)
    requires frames != [] && Reaches(frames, ch)
    ensures Column(frames, ch) == [frames[0][ch]] + Column(frames[1..], ch)
  {
  }

  lemma {:induction false} ProcessLanes(e: Setup, s: EqState, frames: seq<Frame>, ch: nat)
    requires e.Ok() && s.Good(e) && Still(s.bands) && ch < e.channels && Reaches(frames, ch)
    ensures Wide(s.bands, ch) && Reaches(Process(e, s, frames).out, ch)
    ensures Column(Process(e, s, frames).out, ch) ==
            Scaled(s.global, SampleBySample(Lanes(s.bands, ch), Column(frames, ch)))
    decreases |frames|
  {
    GoodIsWide(e, s, ch);
    if frames != [] {
      hide Still, Wide, Lanes, LaneThrough, AdvancedAll, ProcessFrame, EqState.Good, Setup.Ok, RampState.Tick, Product,
        Column, Scaled;
      FrameLanes(e, s, frames[0], ch);
      FrameIsGood(e, s, frames[0]);
      var row := ProcessFrame(e, s, frames[0]);
      var next := EqState(row.bands, s.global.Tick());
      ProcessLanes(e, next, frames[1..], ch);
      ColumnFirst(frames, ch);
      ColumnFirst(Process(e, s, frames).out, ch);
      ScaledFirst(s.global, SampleBySample(Lanes(s.bands, ch), Column(frames, ch)));
    }
  }

  lemma GoodIsWide(e: Setup, s: EqState, ch: nat)
    requires e.Ok() && s.Good(e) && ch < e.channels
    ensures Wide(s.bands, ch)
  {
  }

  // ----- from sample by sample to band by band

  /** One lane over all samples. */
  function LaneRun(l: Lane, xs: seq<real>): (r: seq<real>)
    ensures |r| == |xs|
    decreases |xs|
  {
    if xs == [] then []
    else [Gives(Advanced(l), xs[0])] + LaneRun(Told(Advanced(l), xs[0]), xs[1..])
  }

  function BandByBand(ls: seq<Lane>, xs: seq<real>): (r: seq<real>)
    ensures |r| == |xs|
    decreases |ls|
  {
    if ls == [] then xs else BandByBand(ls[1..], LaneRun(ls[0], xs))
  }

  lemma {:induction false} FirstSample(ls: seq<Lane>, xs: seq<real>)
    requires xs != []
    ensures var t := LaneThrough(AdvancedAll(ls), xs[0]);
            BandByBand(ls, xs) == [t.x] + BandByBand(t.lanes, xs[1..])
    decreases |ls|
  {
    hide Gives, Told, Advanced;
    if ls == [] {
      assert [xs[0]] + xs[1..] == xs;
    } else {
      var ys := LaneRun(ls[0], xs);
      var l := Told(Advanced(ls[0]), xs[0]);
      assert ys[0] == Gives(Advanced(ls[0]), xs[0]) && ys[1..] == LaneRun(l, xs[1..]);
      FirstSample(ls[1..], ys);
      assert AdvancedAll(ls)[1..] == AdvancedAll(ls[1..]);
      var t, u := LaneThrough(AdvancedAll(ls), xs[0]), LaneThrough(AdvancedAll(ls[1..]), ys[0]);
      assert t.lanes[0] == l && t.lanes[1..] == u.lanes && t.x == u.x;
    }
  }

  lemma {:induction false} OrdersAgree(ls: seq<Lane>, xs: seq<real>)
    ensures SampleBySample(ls, xs) == BandByBand(ls, xs)
    decreases |xs|
  {
    hide LaneThrough, AdvancedAll;
    if xs == [] {
      Nothing(ls);
    } else {
      FirstSample(ls, xs);
      OrdersAgree(LaneThrough(AdvancedAll(ls), xs[0]).lanes, xs[1..]);
    }
  }

  lemma Nothing(ls: seq<Lane>)
    ensures BandByBand(ls, []) == []
  {
  }

  // ----- one lane is its filter, blended in

  /** A wet ramp: within 0 and 1, on the way to one of them. */
  ghost predicate IsWet(w: RampState) {
    w.Valid() && 0.0 <= w.value <= 1.0 && (w.target == 0.0 || w.target == 1.0)
  }

  lemma WetGoesOn(w: RampState)
    requires IsWet(w)
    ensures IsWet(w.Tick())
  {
    TickKeepsValid(w);
    TickBetween(w);
  }

  /** Nothing is heard of the band, and nothing will be until it is set again. */
  ghost predicate Dry(w: RampState) {
    w.value == 0.0 && (w.left > 0 ==> w.step == 0.0 && w.target == 0.0)
  }

  lemma SilentIsDry(w: RampState)
    requires IsWet(w) && w.Tick().value == 0.0
    ensures Dry(w.Tick())
  {
    WetGoesOn(w);
    var t := w.Tick();
    if t.left > 0 {
      StepSign(t.left, t.step);
    }
  }

  lemma {:induction false} DryStays(w: RampState, n: nat)
    requires Dry(w)
    ensures TickN(w, n).value == 0.0 && Dry(TickN(w, n))
  {
    if n > 0 {
      DryStays(w, n - 1);
    }
  }

  lemma {:induction false} DryRun(l: Lane, xs: seq<real>)
    requires Dry(l.wet)
    ensures LaneRun(l, xs) == xs
    decreases |xs|
  {
    if xs != [] {
      DryStays(l.wet, 1);
      assert TickN(l.wet, 1) == TickN(l.wet, 0).Tick();
      BlendEnds(0.0, xs[0], Output(l.coefs, Advanced(l).state, xs[0]));
      hide Blend, RampState.Tick, Output, Next;
      DryRun(Told(Advanced(l), xs[0]), xs[1..]);
      assert [xs[0]] + xs[1..] == xs;
    }
  }

  lemma DryBlend(w: RampState, xs: seq<real>, ys: seq<real>)
    requires Dry(w) && |xs| == |ys|
    ensures Blended(w, xs, ys) == xs
  {
    forall i | 0 <= i < |xs| ensures Blended(w, xs, ys)[i] == xs[i] {
      DryStays(w, i + 1);
      BlendEnds(0.0, xs[i], ys[i]);
    }
  }

  lemma BlendedFirst(w: RampState, xs: seq<real>, ys: seq<real>)
    requires |xs| == |ys| > 0
    ensures Blended(w, xs, ys) == [Blend(w.Tick().value, xs[0], ys[0])] + Blended(w.Tick(), xs[1..], ys[1..])
  {
    hide RampState.Tick, Blend;
    forall i | 0 < i < |xs| ensures Blended(w, xs, ys)[i] == Blended(w.Tick(), xs[1..], ys[1..])[i - 1] {
      TickNAfter(w, i);
    }
    assert TickN(w, 0) == w;
  }

  lemma {:induction false} ResponseLength(c: Coefs, s: State, xs: seq<real>)
    ensures |Response(c, s, xs)| == |xs|
    decreases |xs|
  {
    hide Output, Next;
    if xs != [] {
      ResponseLength(c, Next(c, s, xs[0]), xs[1..]);
    }
  }

  /** A lane is its filter's response, blended in. */
  lemma {:induction false} LaneIsBlended(l: Lane, xs: seq<real>)
    requires IsWet(l.wet)
    ensures |Response(l.coefs, l.state, xs)| == |xs|
    ensures LaneRun(l, xs) == Blended(l.wet, xs, Response(l.coefs, l.state, xs))
    decreases |xs|
  {
    ResponseLength(l.coefs, l.state, xs);
    if xs != [] {
      var w, ys := l.wet.Tick(), Response(l.coefs, l.state, xs);
      hide RampState.Tick, Blend, Output, Next, Response, Blended, IsWet, Dry;
      ResponseFirst(l.coefs, l.state, xs);
      BlendedFirst(l.wet, xs, ys);
      WetGoesOn(l.wet);
      if w.value == 0.0 {
        SilentIsDry(l.wet);
        BlendEnds(0.0, xs[0], ys[0]);
        BlendEnds(0.0, xs[0], Output(l.coefs, Advanced(l).state, xs[0]));
        DryRun(Told(Advanced(l), xs[0]), xs[1..]);
        DryBlend(w, xs[1..], ys[1..]);
      } else {
        LaneIsBlended(Told(Advanced(l), xs[0]), xs[1..]);
      }
    }
  }

  lemma ResponseFirst(c: Coefs, s: State, xs: seq<real>)
    requires xs != []
    ensures Response(c, s, xs) == [Output(c, s, xs[0])] + Response(c, Next(c, s, xs[0]), xs[1..])
  {
  }

  // ----- the theorem

  lemma BiquadsAreProper(e: Setup, bs: seq<BandState>)
    requires e.Ok() && e.maths.HalfAngles() && AllGood(e, bs)
    ensures Proper(e, bs)
  {
    forall i | 0 <= i < |bs| ensures bs[i].target.Valid() && BiquadOf(e, bs[i].target).a0 != 0.0 {
      assert bs[i].Good(e);
      hide *;
      BiquadIsProper(e, bs[i]);
    }
  }

  lemma BiquadIsProper(e: Setup, b: BandState)
    requires e.Ok() && e.maths.HalfAngles() && b.Good(e)
    ensures b.target.Valid() && BiquadOf(e, b.target).a0 != 0.0
  {
    assert b.target.Valid();
    hide BandState.Good, Maths.Sound, Maths.HalfAngles, Cookbook, UsedAlpha, Design, Band.Valid;
    EveryKindIsCookbook(e.maths, b.target, e.rate, []);
  }

  lemma LaneIsCookbook(e: Setup, b: BandState, ch: nat, xs: seq<real>)
    requires e.Ok() && e.maths.HalfAngles() && b.Good(e) && !b.Moving() && b.Silent() && ch < |b.state|
    requires BiquadOf(e, b.target).a0 != 0.0
    requires b.Bypassed() || Unflushable(e.Design(b.target), ZERO, xs)
    ensures LaneRun(LaneOf(b, ch), xs) == Blended(b.wet, xs, Filtered(e, b.target, xs))
  {
    assert IsWet(b.wet) && b.coefs == e.Design(b.target) && b.state[ch] == ZERO;
    if b.Bypassed() {
      assert Dry(b.wet);
      hide *;
      DryRun(LaneOf(b, ch), xs);
      DryBlend(b.wet, xs, Filtered(e, b.target, xs));
    } else {
      hide BandState.Good, Maths.Sound, Maths.HalfAngles, Cookbook, UsedAlpha, Designs.Design, Band.Valid, Response,
        DirectForm, Unflushable, Blended, LaneRun;
      EveryKindIsCookbook(e.maths, b.target, e.rate, xs);
      LaneIsBlended(LaneOf(b, ch), xs);
    }
  }

  ghost predicate AllSilent(bs: seq<BandState>) {
    forall i :: 0 <= i < |bs| ==> bs[i].Silent()
  }

  lemma {:induction false} LanesAreCascade(e: Setup, bs: seq<BandState>, ch: nat, xs: seq<real>)
    requires e.Ok() && e.maths.HalfAngles() && AllGood(e, bs) && Still(bs) && AllSilent(bs) && Wide(bs, ch)
    requires Proper(e, bs) && Clear(e, bs, xs)
    ensures BandByBand(Lanes(bs, ch), xs) == Cascade(e, bs, xs)
    decreases |bs|
  {
    if bs != [] {
      assert bs[0].Good(e) && !bs[0].Moving() && bs[0].Silent();
      hide BandState.Good, BandState.Moving, BandState.Silent, Setup.Ok, Maths.HalfAngles, LaneOf, LaneRun, Blended,
        Filtered, BiquadOf, Unflushable, BandState.Bypassed;
      LaneIsCookbook(e, bs[0], ch, xs);
      assert Lanes(bs, ch)[1..] == Lanes(bs[1..], ch);
      LanesAreCascade(e, bs[1..], ch, Blended(bs[0].wet, xs, Filtered(e, bs[0].target, xs)));
    }
  }

  /** While no setting moves, from zero state and unflushed: each channel of a block is the
      global gain, as it ramps, times the cascade of its bands' cookbook biquads in direct
      form, each blended in as its wet ramp moves. */
  lemma ProcessIsCascade(e: Setup, s: EqState, frames: seq<Frame>, ch: nat)
    requires e.Ok() && e.maths.HalfAngles() && s.Good(e) && Still(s.bands) && AllSilent(s.bands)
    requires ch < e.channels && Reaches(frames, ch)
    ensures Proper(e, s.bands) && Reaches(Process(e, s, frames).out, ch)
    ensures Clear(e, s.bands, Column(frames, ch)) ==>
              Column(Process(e, s, frames).out, ch) == Scaled(s.global, Cascade(e, s.bands, Column(frames, ch)))
  {
    hide *;
    GoodBands(e, s);
    BiquadsAreProper(e, s.bands);
    ProcessLanes(e, s, frames, ch);
    if Clear(e, s.bands, Column(frames, ch)) {
      LanesAreCascade(e, s.bands, ch, Column(frames, ch));
      OrdersAgree(Lanes(s.bands, ch), Column(frames, ch));
    }
  }

  lemma GoodBands(e: Setup, s: EqState)
    requires e.Ok() && s.Good(e)
    ensures AllGood(e, s.bands)
  {
  }

  // ----- an equalizer at rest

  ghost predicate AllProper(e: Setup, bands: seq<Band>)
    requires e.Ok()
  {
    forall i :: 0 <= i < |bands| ==> bands[i].Valid() && BiquadOf(e, bands[i]).a0 != 0.0
  }

  /** The enabled bands' biquads, one after the other. */
  function Cookbooks(e: Setup, bands: seq<Band>, xs: seq<real>): (r: seq<real>)
    requires e.Ok() && AllProper(e, bands)
    ensures |r| == |xs|
  {
    if bands == [] then xs
    else Cookbooks(e, bands[1..], if bands[0].enabled then Filtered(e, bands[0], xs) else xs)
  }

  /** None of them flushes a state. */
  ghost predicate ClearAtRest(e: Setup, bands: seq<Band>, xs: seq<real>)
    requires e.Ok() && AllProper(e, bands)
  {
    bands != [] ==>
      && (bands[0].enabled ==> Unflushable(e.Design(bands[0]), ZERO, xs))
      && ClearAtRest(e, bands[1..], if bands[0].enabled then Filtered(e, bands[0], xs) else xs)
  }

  function Targets(bs: seq<BandState>): (r: seq<Band>)
    ensures |r| == |bs| && forall i :: 0 <= i < |bs| ==> r[i] == bs[i].target
  {
    seq(|bs|, i requires 0 <= i < |bs| => bs[i].target)
  }

  /** Every band rests, enabled at 1 or bypassed at 0. */
  ghost predicate Rests(bs: seq<BandState>) {
    forall i :: 0 <= i < |bs| ==> !bs[i].wet.Moving() && bs[i].wet.value == Wet(bs[i].target)
  }

  lemma {:induction false} RestingTicks(w: RampState, n: nat)
    requires !w.Moving()
    ensures TickN(w, n) == w
  {
    if n > 0 {
      RestingTicks(w, n - 1);
    }
  }

  lemma RestingBlend(w: RampState, xs: seq<real>, ys: seq<real>)
    requires !w.Moving() && |xs| == |ys|
    ensures w.value == 0.0 ==> Blended(w, xs, ys) == xs
    ensures w.value == 1.0 ==> Blended(w, xs, ys) == ys
  {
    var r := Blended(w, xs, ys);
    forall i | 0 <= i < |xs|
      ensures (w.value == 0.0 ==> r[i] == xs[i]) && (w.value == 1.0 ==> r[i] == ys[i])
    {
      RestingTicks(w, i + 1);
      BlendEnds(w.value, xs[i], ys[i]);
    }
  }

  lemma {:induction false} CascadeAtRest(e: Setup, bs: seq<BandState>, xs: seq<real>)
    requires e.Ok() && Proper(e, bs) && Rests(bs)
    ensures AllProper(e, Targets(bs)) && Cascade(e, bs, xs) == Cookbooks(e, Targets(bs), xs)
    ensures ClearAtRest(e, Targets(bs), xs) ==> Clear(e, bs, xs)
    decreases |bs|
  {
    hide BiquadOf, Filtered, Setup.Ok, Unflushable, Blended, RampState.Moving, Band.Valid, Setup.Design;
    assert AllProper(e, Targets(bs));
    if bs != [] {
      var ys := Filtered(e, bs[0].target, xs);
      RestingBlend(bs[0].wet, xs, ys);
      assert Targets(bs)[1..] == Targets(bs[1..]) && Targets(bs)[0] == bs[0].target;
      CascadeAtRest(e, bs[1..], Blended(bs[0].wet, xs, ys));
    }
  }

  lemma ScaledAtRest(gain: RampState, ys: seq<real>)
    requires !gain.Moving()
    ensures forall i :: 0 <= i < |ys| ==> Scaled(gain, ys)[i] == Product(ys[i], gain.value)
  {
    forall i | 0 <= i < |ys| ensures Scaled(gain, ys)[i] == Product(ys[i], gain.value) {
      RestingTicks(gain, i + 1);
    }
  }

  /** Everything rests, with zero states. */
  ghost predicate RestsSilent(s: EqState) {
    Still(s.bands) && Rests(s.bands) && AllSilent(s.bands) && !s.global.Moving()
  }

  /** Unless a state is flushed on the way, `ys` is the global gain times the cascade of the
      enabled bands' cookbook biquads over `xs`, in band order. */
  ghost predicate Plays(e: Setup, s: EqState, xs: seq<real>, ys: seq<real>)
    requires e.Ok()
  {
    && AllProper(e, Targets(s.bands)) && |ys| == |xs|
    && (ClearAtRest(e, Targets(s.bands), xs) ==>
          forall i :: 0 <= i < |xs| ==> ys[i] == Product(Cookbooks(e, Targets(s.bands), xs)[i], s.global.value))
  }

  /** So it is with each channel of a block that finds the equalizer at rest. */
  lemma RestIsCookbooks(e: Setup, s: EqState, frames: seq<Frame>, ch: nat)
    requires e.Ok() && e.maths.HalfAngles() && s.Good(e) && RestsSilent(s) && ch < e.channels && Reaches(frames, ch)
    ensures Reaches(Process(e, s, frames).out, ch)
    ensures Plays(e, s, Column(frames, ch), Column(Process(e, s, frames).out, ch))
  {
    var xs, out := Column(frames, ch), Process(e, s, frames).out;
    hide Setup.Ok, Maths.HalfAngles, EqState.Good, Process, Still, AllSilent, Rests, RampState.Moving, Cascade,
      Cookbooks, Clear, ClearAtRest, Proper, AllProper, Scaled, Product, Column;
    ProcessIsCascade(e, s, frames, ch);
    CascadeAtRest(e, s.bands, xs);
    ScaledAtRest(s.global, Cascade(e, s.bands, xs));
  }

  // ----- after a set

  ghost predicate AllRestWithin(bs: seq<BandState>, n: nat) {
    forall i :: 0 <= i < |bs| ==> RestsWithin(bs[i], n)
  }

  lemma BandNearer(b: BandState, e: Setup, n: nat)
    requires e.Ok() && b.Good(e) && RestsWithin(b, n)
    ensures b.Advance(e).target == b.target && RestsWithin(b.Advance(e), if n > 0 then n - 1 else 0)
  {
    hide BandState.Good, RestsWithin, BandState.Advance;
    OneNearer(b, e, AdvanceOne, n);
  }

  lemma FrameNearer(e: Setup, s: EqState, frame: Frame, n: nat)
    requires e.Ok() && s.Good(e) && AllRestWithin(s.bands, n)
    ensures forall i :: 0 <= i < |s.bands| ==> s.bands[i].target.Valid()
    ensures var r := ProcessFrame(e, s, frame).bands;
            AllRestWithin(r, if n > 0 then n - 1 else 0) && Targets(r) == Targets(s.bands)
  {
    GoodTargets(e, s.bands);
    var bs, m := AdvanceBands(e, s.bands), if n > 0 then n - 1 else 0;
    forall i | 0 <= i < |bs| ensures RestsWithin(bs[i], m) && bs[i].target == s.bands[i].target {
      assert s.bands[i].Good(e);
      hide BandState.Advance, BandState.Good, RestsWithin;
      BandNearer(s.bands[i], e, n);
    }
    hide BandState.Good, Setup.Ok, AdvanceBands, Channels, RampState.Tick;
    ChannelsKeep(bs, s.global.Tick().value, frame, 0);
  }

  lemma {:induction false} ProcessRests(e: Setup, s: EqState, frames: seq<Frame>)
    requires e.Ok() && s.Good(e) && AllRestWithin(s.bands, |frames|) && s.global.left <= |frames|
    ensures var r := Process(e, s, frames).state;
            && AllRestWithin(r.bands, 0) && Targets(r.bands) == Targets(s.bands)
            && r.global.left == 0 && r.global.target == s.global.target
    decreases |frames|
  {
    hide AllRestWithin, ProcessFrame, EqState.Good, Setup.Ok, RampState.Valid;
    if frames != [] {
      FrameNearer(e, s, frames[0], |frames|);
      FrameIsGood(e, s, frames[0]);
      ProcessRests(e, EqState(ProcessFrame(e, s, frames[0]).bands, s.global.Tick()), frames[1..]);
    }
  }

  /** After an accepted set and a block of at least the ramps' length the equalizer rests at
      exactly those settings: each band has the filter of its own and is wholly heard or
      bypassed, and the gain is the set one. From a reset on, `RestIsCookbooks` says how it
      sounds. */
  lemma SetAllSettles(e: Setup, s: EqState, p: EqParams, frames: seq<Frame>)
    requires e.Ok() && s.Good(e) && |p.bands| == BANDS && Accepted(p) && |frames| >= e.len
    ensures SetAll(e, s, p).Good(e)
    ensures var r := Process(e, SetAll(e, s, p), frames).state;
            && r.Good(e) && Targets(r.bands) == p.bands && Still(r.bands) && Rests(r.bands)
            && !r.global.Moving() && r.global.value == p.globalGain
            && forall i :: 0 <= i < |r.bands| ==> r.bands[i].coefs == e.Design(p.bands[i])
  {
    SetAllIsGood(e, s, p);
    SetAllTakes(e, s, p);
    var t := SetAll(e, s, p);
    hide SetAll, Process, BandState.Good, Accepted, Setup.Design;
    forall i | 0 <= i < |t.bands| ensures RestsWithin(t.bands[i], |frames|) {
      LongestRamp(t.bands[i], e, |frames|);
    }
    ProcessRests(e, t, frames);
    var r := Process(e, t, frames).state;
    forall i | 0 <= i < |r.bands|
      ensures !r.bands[i].Moving() && !r.bands[i].wet.Moving() && r.bands[i].wet.value == Wet(r.bands[i].target)
              && r.bands[i].target == p.bands[i] && r.bands[i].coefs == e.Design(p.bands[i])
    {
      assert RestsWithin(r.bands[i], 0) && Targets(r.bands)[i] == p.bands[i];
      AtRest(r.bands[i], e);
    }
  }

  lemma AtRest(b: BandState, e: Setup)
    requires e.Ok() && b.Good(e) && RestsWithin(b, 0)
    ensures b.target.Valid() && !b.Moving() && b.coefs == e.Design(b.target)
    ensures !b.wet.Moving() && b.wet.value == Wet(b.target)
  {
    hide FreqKey, GainKey, BwKey, Setup.Design, Coefs.Passive;
  }

  lemma SetAllTakes(e: Setup, s: EqState, p: EqParams)
    requires e.Ok() && s.Good(e) && |p.bands| == BANDS && Accepted(p)
    ensures var t := SetAll(e, s, p);
            && Targets(t.bands) == p.bands && t.global.target == p.globalGain
            && t.global.left <= t.global.len == s.global.len
  {
    forall i | 0 <= i < |s.bands| ensures SetAll(e, s, p).bands[i].target == p.bands[i] {
      assert s.bands[i].Good(e) && p.bands[i].Valid();
      hide BandState.Set, BandState.Good;
      SetTakes(s.bands[i], e, p.bands[i]);
    }
    SetKeepsValid(s.global, p.globalGain);
    hide BandState.Set, BandState.Good;
  }
}
