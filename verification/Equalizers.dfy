/**
The five-band equalizer: its value, whole runs over blocks of frames, the object that
processes blocks in place, and the fast path that skips a block while it passes its
input through.
*/
module Equalizers {
  import opened Reals
  import opened Ramps
  import opened Svf
  import opened Designs
  import opened Bands

  const BANDS: nat := 5

  datatype EqParams = EqParams(bands: seq<Band>, globalGain: real)

  /** One sample of every channel. */
  type Frame = seq<real>

  datatype EqState = EqState(bands: seq<BandState>, global: RampState) {
    ghost predicate Good(e: Setup)
      requires e.Ok()
    {
      && |bands| == BANDS
      && (forall i :: 0 <= i < |bands| ==> bands[i].Good(e))
      && global.Valid() && global.len == e.len
    }

    predicate IsIdentity() {
      && !global.Moving()
      && global.value == 1.0
      && forall i :: 0 <= i < |bands| ==> bands[i].Bypassed()
    }

    /** The current targets. */
    function Params(): EqParams {
      EqParams(seq(|bands|, i requires 0 <= i < |bands| => bands[i].target), global.target)
    }

    function Reset(): EqState {
      this.(bands := seq(|bands|, i requires 0 <= i < |bands| => bands[i].Reset()))
    }
  }

  // ----- set

  function SetIfValid(e: Setup, b: BandState, p: Band): BandState
    requires e.Ok() && b.Good(e)
  {
    if p.Valid() then b.Set(e, p) else b
  }

  function SetBands(e: Setup, bs: seq<BandState>, ps: seq<Band>): (r: seq<BandState>)
    requires e.Ok() && |bs| == |ps| && forall i :: 0 <= i < |bs| ==> bs[i].Good(e)
    ensures |r| == |bs|
  {
    seq(|bs|, i requires 0 <= i < |bs| => SetIfValid(e, bs[i], ps[i]))
  }

  function SetAll(e: Setup, s: EqState, p: EqParams): EqState
    requires e.Ok() && s.Good(e) && |p.bands| == BANDS
  {
    EqState(SetBands(e, s.bands, p.bands), if p.globalGain >= 0.0 then s.global.Set(p.globalGain) else s.global)
  }

  /** Whether every part of the new settings was taken. */
  predicate Accepted(p: EqParams) {
    (forall i :: 0 <= i < |p.bands| ==> p.bands[i].Valid()) && p.globalGain >= 0.0
  }

  // ----- process

  function AdvanceBands(e: Setup, bs: seq<BandState>): (r: seq<BandState>)
    requires e.Ok() && forall i :: 0 <= i < |bs| ==> bs[i].target.Valid()
    ensures |r| == |bs|
  {
    seq(|bs|, i requires 0 <= i < |bs| => bs[i].Advance(e))
  }

  datatype Chain = Chain(bands: seq<BandState>, x: real)

  /** One channel's sample through the bands, one after the other. */
  function Through(bs: seq<BandState>, ch: nat, x: real): (c: Chain)
    ensures |c.bands| == |bs|
  {
    if bs == [] then Chain([], x)
    else
      var rest := Through(bs[1..], ch, bs[0].Heard(ch, x));
      Chain([bs[0].Ticked(ch, x)] + rest.bands, rest.x)
  }

  datatype Row = Row(bands: seq<BandState>, out: Frame)

  /** The channels from `ch` on, each through the bands the one before left. */
  function Channels(bs: seq<BandState>, gain: real, frame: Frame, ch: nat): (r: Row)
    requires ch <= |frame|
    ensures |r.bands| == |bs| && |r.out| == |frame| - ch
    decreases |frame| - ch
  {
    if ch == |frame| then Row(bs, [])
    else
      var c := Through(bs, ch, frame[ch]);
      var rest := Channels(c.bands, gain, frame, ch + 1);
      Row(rest.bands, [Product(c.x, gain)] + rest.out)
  }

  datatype Block = Block(state: EqState, out: seq<Frame>)

  function ProcessFrame(e: Setup, s: EqState, frame: Frame): Row
    requires e.Ok() && forall i :: 0 <= i < |s.bands| ==> s.bands[i].target.Valid()
  {
    Channels(AdvanceBands(e, s.bands), s.global.Tick().value, frame, 0)
  }

  function Process(e: Setup, s: EqState, frames: seq<Frame>): (b: Block)
    requires e.Ok() && s.Good(e)
    ensures b.state.Good(e) && |b.out| == |frames|
    decreases |frames|
  {
    if frames == [] then Block(s, [])
    else
      var row := ProcessFrame(e, s, frames[0]);
      FrameIsGood(e, s, frames[0]);
      var rest := Process(e, EqState(row.bands, s.global.Tick()), frames[1..]);
      Block(rest.state, [row.out] + rest.out)
  }

  // ----- what every operation keeps

  ghost predicate AllGood(e: Setup, bs: seq<BandState>)
    requires e.Ok()
  {
    forall i :: 0 <= i < |bs| ==> bs[i].Good(e)
  }

  lemma {:induction false} ThroughIsGood(e: Setup, bs: seq<BandState>, ch: nat, x: real)
    requires e.Ok() && AllGood(e, bs)
    ensures AllGood(e, Through(bs, ch, x).bands)
  {
    hide BandState.Good, BandState.Heard, BandState.Ticked, Setup.Ok;
    if bs != [] {
      TickedIsGood(bs[0], e, ch, x);
      ThroughIsGood(e, bs[1..], ch, bs[0].Heard(ch, x));
    }
  }

  lemma {:induction false} ChannelsAreGood(e: Setup, bs: seq<BandState>, gain: real, frame: Frame, ch: nat)
    requires e.Ok() && AllGood(e, bs) && ch <= |frame|
    ensures AllGood(e, Channels(bs, gain, frame, ch).bands)
    decreases |frame| - ch
  {
    hide AllGood, Through, Setup.Ok;
    if ch < |frame| {
      ThroughIsGood(e, bs, ch, frame[ch]);
      ChannelsAreGood(e, Through(bs, ch, frame[ch]).bands, gain, frame, ch + 1);
    }
  }

  lemma BandsAdvanceGood(e: Setup, bs: seq<BandState>)
    requires e.Ok() && AllGood(e, bs) && forall i :: 0 <= i < |bs| ==> bs[i].target.Valid()
    ensures AllGood(e, AdvanceBands(e, bs))
  {
    hide BandState.Good, BandState.Advance, Setup.Ok;
    forall i | 0 <= i < |bs| ensures bs[i].Advance(e).Good(e) {
      AdvanceIsGood(bs[i], e);
    }
  }

  lemma GoodIsAimed(e: Setup, b: BandState)
    requires e.Ok() && b.Good(e)
    ensures b.Aimed(e)
  {
  }

  lemma GoodTargets(e: Setup, bs: seq<BandState>)
    requires e.Ok() && AllGood(e, bs)
    ensures forall i :: 0 <= i < |bs| ==> bs[i].target.Valid()
  {
  }

  lemma FrameIsGood(e: Setup, s: EqState, frame: Frame)
    requires e.Ok() && s.Good(e)
    ensures forall i :: 0 <= i < |s.bands| ==> s.bands[i].target.Valid()
    ensures EqState(ProcessFrame(e, s, frame).bands, s.global.Tick()).Good(e)
  {
    GoodTargets(e, s.bands);
    BandsAdvanceGood(e, s.bands);
    ChannelsAreGood(e, AdvanceBands(e, s.bands), s.global.Tick().value, frame, 0);
    TickKeepsValid(s.global);
    hide BandState.Good, BandState.Advance, Setup.Ok, Channels, RampState.Valid, RampState.Tick, AdvanceBands;
  }

  lemma SetAllIsGood(e: Setup, s: EqState, p: EqParams)
    requires e.Ok() && s.Good(e) && |p.bands| == BANDS
    ensures SetAll(e, s, p).Good(e)
  {
    SetKeepsValid(s.global, p.globalGain);
    hide BandState.Good, BandState.Set, Setup.Ok, RampState.Valid, RampState.Set;
    forall i | 0 <= i < |s.bands| ensures SetAll(e, s, p).bands[i].Good(e) {
      if p.bands[i].Valid() { SetIsGood(s.bands[i], e, p.bands[i]); }
    }
  }

  lemma ResetAllIsGood(e: Setup, s: EqState)
    requires e.Ok() && s.Good(e)
    ensures s.Reset().Good(e)
  {
    hide BandState.Good, BandState.Reset, Setup.Ok;
    forall i | 0 <= i < |s.bands| ensures s.Reset().bands[i].Good(e) {
      ResetIsGood(s.bands[i], e);
    }
  }

  // ----- block size never matters

  /** Processing `xs` and then `ys` is processing both as one block, in outputs and state. */
  lemma {:induction false} BlocksJoin(e: Setup, s: EqState, xs: seq<Frame>, ys: seq<Frame>)
    requires e.Ok() && s.Good(e)
    ensures var first := Process(e, s, xs);
            var second := Process(e, first.state, ys);
            Process(e, s, xs + ys) == Block(second.state, first.out + second.out)
    decreases |xs|
  {
    hide ProcessFrame, EqState.Good, Setup.Ok;
    if xs == [] {
      assert xs + ys == ys;
    } else {
      assert (xs + ys)[0] == xs[0] && (xs + ys)[1..] == xs[1..] + ys;
      FrameIsGood(e, s, xs[0]);
      BlocksJoin(e, EqState(ProcessFrame(e, s, xs[0]).bands, s.global.Tick()), xs[1..], ys);
    }
  }

  // ----- the fast path

  /** Two bands nothing can tell apart: equal, or both bypassed, when only the parameter
      ramps, the filter and the step count may differ (the next set rebuilds them). */
  ghost predicate Similar(a: BandState, b: BandState) {
    a == b ||
    (a.Bypassed() && b.Bypassed() && a.target == b.target && a.wet == b.wet && a.state == b.state)
  }

  ghost predicate SimilarBands(xs: seq<BandState>, ys: seq<BandState>) {
    |xs| == |ys| && forall i :: 0 <= i < |xs| ==> Similar(xs[i], ys[i])
  }

  ghost predicate SimilarEq(s: EqState, t: EqState) {
    SimilarBands(s.bands, t.bands) && s.global == t.global
  }

  lemma BypassedAdvance(b: BandState, e: Setup)
    requires e.Ok() && b.Good(e) && b.Bypassed()
    ensures Similar(b.Advance(e), b)
  {
    hide FreqKey, GainKey, BwKey, Setup.Design, Coefs.Passive, Setup.Ok;
    assert b.state == Silence(|b.state|);
  }

  lemma SimilarAdvance(a: BandState, b: BandState, e: Setup)
    requires e.Ok() && a.Good(e) && b.Good(e) && Similar(a, b)
    ensures Similar(a.Advance(e), b.Advance(e))
  {
    if a != b {
      BypassedAdvance(a, e);
      BypassedAdvance(b, e);
      hide BandState.Advance, BandState.Good;
    }
  }

  lemma SimilarSet(a: BandState, b: BandState, e: Setup, p: Band)
    requires e.Ok() && a.Good(e) && b.Good(e) && Similar(a, b)
    ensures Similar(SetIfValid(e, a, p), SetIfValid(e, b, p))
  {
    hide FreqKey, GainKey, BwKey, Setup.Design, Coefs.Passive, Setup.Ok, New, RampState.Set;
  }

  lemma SimilarTick(a: BandState, b: BandState, ch: nat, x: real)
    requires Similar(a, b)
    ensures a.Heard(ch, x) == b.Heard(ch, x) && Similar(a.Ticked(ch, x), b.Ticked(ch, x))
  {
  }

  lemma {:induction false} SimilarThrough(xs: seq<BandState>, ys: seq<BandState>, ch: nat, x: real)
    requires SimilarBands(xs, ys)
    ensures Through(xs, ch, x).x == Through(ys, ch, x).x
    ensures SimilarBands(Through(xs, ch, x).bands, Through(ys, ch, x).bands)
  {
    if xs != [] {
      SimilarTick(xs[0], ys[0], ch, x);
      hide Similar, BandState.Heard, BandState.Ticked;
      SimilarThrough(xs[1..], ys[1..], ch, xs[0].Heard(ch, x));
    }
  }

  lemma {:induction false} SimilarChannels(xs: seq<BandState>, ys: seq<BandState>, gain: real, frame: Frame, ch: nat)
    requires SimilarBands(xs, ys) && ch <= |frame|
    ensures Channels(xs, gain, frame, ch).out == Channels(ys, gain, frame, ch).out
    ensures SimilarBands(Channels(xs, gain, frame, ch).bands, Channels(ys, gain, frame, ch).bands)
    decreases |frame| - ch
  {
    hide SimilarBands, Through, Product;
    if ch < |frame| {
      SimilarThrough(xs, ys, ch, frame[ch]);
      SimilarChannels(Through(xs, ch, frame[ch]).bands, Through(ys, ch, frame[ch]).bands, gain, frame, ch + 1);
    }
  }

  lemma SimilarAdvances(e: Setup, xs: seq<BandState>, ys: seq<BandState>)
    requires e.Ok() && AllGood(e, xs) && AllGood(e, ys) && SimilarBands(xs, ys)
    requires forall i :: 0 <= i < |xs| ==> xs[i].target.Valid()
    requires forall i :: 0 <= i < |ys| ==> ys[i].target.Valid()
    ensures SimilarBands(AdvanceBands(e, xs), AdvanceBands(e, ys))
  {
    hide BandState.Good, BandState.Advance, Similar, Setup.Ok;
    forall i | 0 <= i < |xs| ensures Similar(xs[i].Advance(e), ys[i].Advance(e)) {
      SimilarAdvance(xs[i], ys[i], e);
    }
  }

  lemma SimilarFrame(e: Setup, s: EqState, t: EqState, frame: Frame)
    requires e.Ok() && s.Good(e) && t.Good(e) && SimilarEq(s, t)
    ensures forall i :: 0 <= i < |s.bands| ==> s.bands[i].target.Valid()
    ensures forall i :: 0 <= i < |t.bands| ==> t.bands[i].target.Valid()
    ensures ProcessFrame(e, s, frame).out == ProcessFrame(e, t, frame).out
    ensures SimilarBands(ProcessFrame(e, s, frame).bands, ProcessFrame(e, t, frame).bands)
  {
    GoodTargets(e, s.bands);
    GoodTargets(e, t.bands);
    hide BandState.Good, AdvanceBands, Channels, SimilarBands, Setup.Ok, RampState.Tick;
    SimilarAdvances(e, s.bands, t.bands);
    SimilarChannels(AdvanceBands(e, s.bands), AdvanceBands(e, t.bands), s.global.Tick().value, frame, 0);
  }

  lemma {:induction false} SimilarProcess(e: Setup, s: EqState, t: EqState, frames: seq<Frame>)
    requires e.Ok() && s.Good(e) && t.Good(e) && SimilarEq(s, t)
    ensures Process(e, s, frames).out == Process(e, t, frames).out
    ensures SimilarEq(Process(e, s, frames).state, Process(e, t, frames).state)
    decreases |frames|
  {
    if frames != [] {
      hide EqState.Good, ProcessFrame, SimilarBands, Setup.Ok, RampState.Tick;
      SimilarFrame(e, s, t, frames[0]);
      FrameIsGood(e, s, frames[0]);
      FrameIsGood(e, t, frames[0]);
      SimilarProcess(e, EqState(ProcessFrame(e, s, frames[0]).bands, s.global.Tick()),
                     EqState(ProcessFrame(e, t, frames[0]).bands, t.global.Tick()), frames[1..]);
    }
  }

  // a processed block while the equalizer is the identity

  lemma {:induction false} BypassedThrough(bs: seq<BandState>, ch: nat, x: real)
    requires forall i :: 0 <= i < |bs| ==> bs[i].Bypassed()
    ensures Through(bs, ch, x) == Chain(bs, x)
  {
    if bs != [] {
      BypassedThrough(bs[1..], ch, x);
      assert [bs[0]] + bs[1..] == bs;
    }
  }

  lemma {:induction false} BypassedChannels(bs: seq<BandState>, frame: Frame, ch: nat)
    requires ch <= |frame| && forall i :: 0 <= i < |bs| ==> bs[i].Bypassed()
    ensures Channels(bs, 1.0, frame, ch) == Row(bs, frame[ch..])
    decreases |frame| - ch
  {
    if ch < |frame| {
      BypassedThrough(bs, ch, frame[ch]);
      hide Through, BandState.Bypassed;
      BypassedChannels(bs, frame, ch + 1);
      assert [frame[ch]] + frame[ch + 1..] == frame[ch..];
    }
  }

  lemma IdentityFrame(e: Setup, s: EqState, frame: Frame)
    requires e.Ok() && s.Good(e) && s.IsIdentity()
    ensures forall i :: 0 <= i < |s.bands| ==> s.bands[i].target.Valid()
    ensures var row := ProcessFrame(e, s, frame);
            row.out == frame && SimilarBands(row.bands, s.bands) && s.global.Tick() == s.global
  {
    GoodTargets(e, s.bands);
    var bs := AdvanceBands(e, s.bands);
    forall i | 0 <= i < |bs| ensures bs[i].Bypassed() && Similar(bs[i], s.bands[i]) {
      hide BandState.Advance, BandState.Good;
      BypassedAdvance(s.bands[i], e);
    }
    hide BandState.Advance, BandState.Good, Similar, Setup.Ok, BandState.Bypassed, Channels;
    BypassedChannels(bs, frame, 0);
    assert frame[0..] == frame;
  }

  lemma SimilarIsTransitive(s: EqState, t: EqState, u: EqState)
    requires SimilarEq(s, t) && SimilarEq(t, u)
    ensures SimilarEq(s, u)
  {
  }

  lemma SimilarIdentity(s: EqState, t: EqState)
    requires SimilarEq(s, t)
    ensures s.IsIdentity() <==> t.IsIdentity()
  {
  }

  /** While the equalizer is the identity, processing returns its input exactly and leaves
      it indistinguishable from not having processed. */
  lemma {:induction false} IdentityPasses(e: Setup, s: EqState, frames: seq<Frame>)
    requires e.Ok() && s.Good(e) && s.IsIdentity()
    ensures Process(e, s, frames).out == frames
    ensures SimilarEq(Process(e, s, frames).state, s)
    decreases |frames|
  {
    if frames != [] {
      hide EqState.Good, ProcessFrame, Setup.Ok, RampState.Tick, BandState.Bypassed, Similar;
      IdentityFrame(e, s, frames[0]);
      FrameIsGood(e, s, frames[0]);
      var next := EqState(ProcessFrame(e, s, frames[0]).bands, s.global.Tick());
      SimilarIdentity(next, s);
      hide EqState.IsIdentity, SimilarBands;
      IdentityPasses(e, next, frames[1..]);
      SimilarIsTransitive(Process(e, next, frames[1..]).state, next, s);
    } else {
      hide Setup.Ok, EqState.Good;
    }
  }

  // ----- whole sessions

  datatype EqOp = SetParams(p: EqParams) | ResetEq | ProcessBlock(frames: seq<Frame>) | ReadParams

  datatype Seen = Taken(ok: bool) | Nothing | Played(out: seq<Frame>) | Current(p: EqParams)

  /** The engine's rule: with `skip`, a block is not processed while the EQ is the identity. */
  function AfterOp(e: Setup, s: EqState, op: EqOp, skip: bool): (r: EqState)
    requires e.Ok() && s.Good(e) && (op.SetParams? ==> |op.p.bands| == BANDS)
    ensures r.Good(e)
  {
    match op
    case SetParams(p) => SetAllIsGood(e, s, p); SetAll(e, s, p)
    case ResetEq => ResetAllIsGood(e, s); s.Reset()
    case ProcessBlock(frames) => if skip && s.IsIdentity() then s else Process(e, s, frames).state
    case ReadParams => s
  }

  function Observed(e: Setup, s: EqState, op: EqOp, skip: bool): Seen
    requires e.Ok() && s.Good(e)
  {
    match op
    case SetParams(p) => Taken(Accepted(p))
    case ResetEq => Nothing
    case ProcessBlock(frames) => Played(if skip && s.IsIdentity() then frames else Process(e, s, frames).out)
    case ReadParams => Current(s.Params())
  }

  function Session(e: Setup, s: EqState, ops: seq<EqOp>, skip: bool): seq<Seen>
    requires e.Ok() && s.Good(e)
    requires forall i :: 0 <= i < |ops| && ops[i].SetParams? ==> |ops[i].p.bands| == BANDS
    decreases |ops|
  {
    if ops == [] then []
    else [Observed(e, s, ops[0], skip)] + Session(e, AfterOp(e, s, ops[0], skip), ops[1..], skip)
  }

  lemma SimilarSetAll(e: Setup, s: EqState, t: EqState, p: EqParams)
    requires e.Ok() && s.Good(e) && t.Good(e) && SimilarEq(s, t) && |p.bands| == BANDS
    ensures SimilarEq(SetAll(e, s, p), SetAll(e, t, p))
  {
    hide BandState.Good, SetIfValid, Similar, Setup.Ok, RampState.Set;
    forall i | 0 <= i < |s.bands|
      ensures Similar(SetIfValid(e, s.bands[i], p.bands[i]), SetIfValid(e, t.bands[i], p.bands[i]))
    {
      SimilarSet(s.bands[i], t.bands[i], e, p.bands[i]);
    }
  }

  lemma SimilarReset(a: BandState, b: BandState)
    requires Similar(a, b)
    ensures Similar(a.Reset(), b.Reset())
  {
  }

  lemma SimilarOp(e: Setup, s: EqState, t: EqState, op: EqOp)
    requires e.Ok() && s.Good(e) && t.Good(e) && SimilarEq(s, t) && (op.SetParams? ==> |op.p.bands| == BANDS)
    ensures Observed(e, s, op, true) == Observed(e, t, op, false)
    ensures SimilarEq(AfterOp(e, s, op, true), AfterOp(e, t, op, false))
  {
    match op {
      case SetParams(p) =>
        hide EqState.Good, SetAll, Setup.Ok;
        SimilarSetAll(e, s, t, p);
      case ResetEq =>
        forall i | 0 <= i < |s.bands| ensures Similar(s.bands[i].Reset(), t.bands[i].Reset()) {
          SimilarReset(s.bands[i], t.bands[i]);
        }
        hide EqState.Good, Setup.Ok, BandState.Reset, Similar;
      case ProcessBlock(frames) =>
        hide EqState.Good, Setup.Ok, Process, SimilarEq, EqState.IsIdentity;
        SimilarProcess(e, s, t, frames);
        if s.IsIdentity() {
          IdentityPasses(e, s, frames);
          SimilarIsSymmetric(Process(e, s, frames).state, s);
          SimilarIsTransitive(s, Process(e, s, frames).state, Process(e, t, frames).state);
        }
      case ReadParams =>
        assert forall i :: 0 <= i < |s.bands| ==> s.bands[i].target == t.bands[i].target;
        hide EqState.Good, Setup.Ok;
    }
  }

  lemma SimilarIsSymmetric(s: EqState, t: EqState)
    requires SimilarEq(s, t)
    ensures SimilarEq(t, s)
  {
  }

  lemma {:induction false} SimilarSessions(e: Setup, s: EqState, t: EqState, ops: seq<EqOp>)
    requires e.Ok() && s.Good(e) && t.Good(e) && SimilarEq(s, t)
    requires forall i :: 0 <= i < |ops| && ops[i].SetParams? ==> |ops[i].p.bands| == BANDS
    ensures Session(e, s, ops, true) == Session(e, t, ops, false)
    decreases |ops|
  {
    if ops != [] {
      hide EqState.Good, Setup.Ok, SimilarEq, AfterOp, Observed;
      SimilarOp(e, s, t, ops[0]);
      SimilarSessions(e, AfterOp(e, s, ops[0], true), AfterOp(e, t, ops[0], false), ops[1..]);
    }
  }

  /** Skipping every block while the equalizer is the identity is indistinguishable from
      processing it: every later set, reset, block and read answers the same. */
  lemma SkippingIsInvisible(e: Setup, s: EqState, ops: seq<EqOp>)
    requires e.Ok() && s.Good(e)
    requires forall i :: 0 <= i < |ops| && ops[i].SetParams? ==> |ops[i].p.bands| == BANDS
    ensures Session(e, s, ops, true) == Session(e, s, ops, false)
  {
    SimilarSessions(e, s, s, ops);
  }
}
