/**
One equalizer band: its smoothed parameters, its filter and its per-channel state. A
moving band is redesigned every DESIGN_EVERY samples and exactly at the target on the
last step; a disabled one fades out, is bypassed and re-enters from zero state.
*/
module Bands {
  import opened Ramps
  import opened Svf
  import opened Designs

  const DESIGN_EVERY: nat := 16
  const U32: nat := 0x1_0000_0000

  /** What every band of an equalizer shares. */
  datatype Setup = Setup(maths: Maths, rate: real, channels: nat, len: nat) {
    ghost predicate Ok() {
      maths.Sound() && rate > 0.0 && 1 <= len < U32
    }

    function Design(b: Band): (c: Coefs)
      requires Ok() && b.Valid()
      ensures c.Passive()
    {
      Designs.Design(maths, b, rate)
    }
  }

  function Wet(b: Band): real {
    if b.enabled then 1.0 else 0.0
  }

  function Silence(channels: nat): (s: seq<State>)
    ensures |s| == channels && forall i :: 0 <= i < channels ==> s[i] == ZERO
  {
    seq(channels, i => ZERO)
  }

  datatype BandState = BandState(
    target: Band, freq: RampState, gain: RampState, bw: RampState, wet: RampState,
    coefs: Coefs, state: seq<State>, step: nat)
  {
    predicate Bypassed() {
      wet.value == 0.0 && !wet.Moving()
    }

    predicate Moving() {
      freq.Moving() || gain.Moving() || bw.Moving()
    }

    ghost predicate Silent() {
      forall i :: 0 <= i < |state| ==> state[i] == ZERO
    }

    /** The ramps are on the way to the target's keys. */
    ghost predicate Aimed(e: Setup) {
      && freq.Valid() && gain.Valid() && bw.Valid() && wet.Valid()
      && freq.len == gain.len == bw.len == wet.len == e.len
      && freq.target == FreqKey(e.maths, target)
      && gain.target == GainKey(e.maths, target)
      && bw.target == BwKey(e.maths, target)
      && wet.target == Wet(target)
    }

    /** What every operation keeps: a resting band has exactly its target's filter, and a
        bypassed one no state. */
    ghost predicate Good(e: Setup)
      requires e.Ok()
    {
      && target.Valid()
      && Aimed(e)
      && 0.0 <= wet.value <= 1.0
      && coefs.Passive()
      && (!Moving() ==> coefs == e.Design(target))
      && |state| == e.channels
      && (Bypassed() ==> Silent())
    }

    function Set(e: Setup, b: Band): BandState
      requires e.Ok() && b.Valid() && Aimed(e)
    {
      var moved :=
        if b.kind != target.kind || Bypassed() then New(e, b).(wet := wet)
        else
          var f, g, w := FreqKey(e.maths, b), GainKey(e.maths, b), BwKey(e.maths, b);
          var same := f == freq.target && g == gain.target && w == bw.target;
          var next := this.(target := b, step := if same then step else 0,
                            freq := freq.Set(f), gain := gain.Set(g), bw := bw.Set(w));
          if next.Moving() then next else next.(coefs := e.Design(b));
      moved.(wet := moved.wet.Set(Wet(b)))
    }

    function Advance(e: Setup): BandState
      requires e.Ok() && target.Valid()
    {
      var faded := this.(wet := wet.Tick());
      var moved := if Moving() then faded.Glide(e) else faded;
      if moved.Bypassed() then moved.(state := Silence(|state|)) else moved
    }

    /** One sample of a moving band's parameters. */
    function Glide(e: Setup): BandState
      requires e.Ok() && target.Valid()
    {
      var next := this.(freq := freq.Tick(), gain := gain.Tick(), bw := bw.Tick(), step := (step + 1) % U32);
      if !next.Moving() then next.(coefs := e.Design(target))
      else if Due(next.step) then next.(coefs := e.Design(next.Present(e)))
      else next
    }

    /** The settings the ramps are at. */
    function Present(e: Setup): (b: Band)
      requires e.Ok()
      ensures b.Valid()
    {
      Interpolated(e.maths, target, freq.value, gain.value, bw.value)
    }

    /** The state after one sample of channel `ch`. */
    function Ticked(ch: nat, x: real): BandState {
      if wet.value == 0.0 || ch >= |state| then this
      else this.(state := state[ch := Next(coefs, state[ch], x)])
    }

    /** And the sample the band makes of it. */
    function Heard(ch: nat, x: real): real {
      if wet.value == 0.0 || ch >= |state| then x
      else
        var y := Output(coefs, state[ch], x);
        if wet.value == 1.0 then y else x + wet.value * (y - x)
    }

    function Reset(): BandState {
      this.(state := Silence(|state|))
    }
  }

  /** A band resting at `b`. */
  function New(e: Setup, b: Band): BandState
    requires e.Ok() && b.Valid()
  {
    BandState(b, Resting(FreqKey(e.maths, b), e.len), Resting(GainKey(e.maths, b), e.len),
              Resting(BwKey(e.maths, b), e.len), Resting(Wet(b), e.len),
              e.Design(b), Silence(e.channels), 0)
  }

  // ----- what every operation keeps

  lemma NewIsGood(e: Setup, b: Band)
    requires e.Ok() && b.Valid()
    ensures New(e, b).Good(e)
  {
    hide FreqKey, GainKey, BwKey, Setup.Design, Coefs.Passive;
  }

  lemma SetIsGood(s: BandState, e: Setup, b: Band)
    requires e.Ok() && b.Valid() && s.Good(e)
    ensures s.Set(e, b).Good(e)
  {
    hide FreqKey, GainKey, BwKey, Setup.Design, Coefs.Passive;
    NewIsGood(e, b);
    SetKeepsValid(s.freq, FreqKey(e.maths, b));
    SetKeepsValid(s.gain, GainKey(e.maths, b));
    SetKeepsValid(s.bw, BwKey(e.maths, b));
    SetKeepsValid(s.wet, Wet(b));
    hide RampState.Set, RampState.Valid;
  }

  /** The ramps already lead to the settings' keys. */
  predicate SameKeys(m: Maths, s: BandState, b: Band) {
    s.freq.target == FreqKey(m, b) && s.gain.target == GainKey(m, b) && s.bw.target == BwKey(m, b)
  }

  /** A set makes the band its target, and a new glide counts its samples from 0. A band that
      is heard keeps its sound: its kind kept, its state, its present settings and, while it
      glides, its filter stay, and only then does it move; a new kind or a bypassed band starts
      from zero state at the new settings. */
  lemma SetTakes(s: BandState, e: Setup, b: Band)
    requires e.Ok() && b.Valid() && s.Good(e)
    ensures var r := s.Set(e, b);
            && r.target == b && r.wet.value == s.wet.value && r.wet.target == Wet(b)
            && (b.kind == s.target.kind && !s.Bypassed() ==>
                  && r.step == (if SameKeys(e.maths, s, b) then s.step else 0)
                  && r.state == s.state && (r.Moving() ==> r.coefs == s.coefs)
                  && r.freq.value == s.freq.value && r.gain.value == s.gain.value && r.bw.value == s.bw.value)
            && (b.kind != s.target.kind || s.Bypassed() ==>
                  !r.Moving() && r.Silent() && r.coefs == e.Design(b) && r.step == 0)
  {
    hide FreqKey, GainKey, BwKey, Setup.Design, Coefs.Passive;
    SetKeepsValid(s.freq, FreqKey(e.maths, b));
    SetKeepsValid(s.gain, GainKey(e.maths, b));
    SetKeepsValid(s.bw, BwKey(e.maths, b));
    SetKeepsValid(s.wet, Wet(b));
    hide RampState.Set, RampState.Valid;
  }

  lemma GlideIsGood(s: BandState, e: Setup)
    requires e.Ok() && s.Good(e)
    ensures var n := s.Glide(e);
            && n.Aimed(e) && n.coefs.Passive() && (!n.Moving() ==> n.coefs == e.Design(n.target))
            && n.target == s.target && n.wet == s.wet && n.state == s.state
  {
    hide FreqKey, GainKey, BwKey, Setup.Design, Coefs.Passive, BandState.Present;
    TickKeepsValid(s.freq);
    TickKeepsValid(s.gain);
    TickKeepsValid(s.bw);
    hide RampState.Tick, RampState.Valid;
  }

  lemma AdvanceIsGood(s: BandState, e: Setup)
    requires e.Ok() && s.Good(e)
    ensures s.Advance(e).Good(e)
  {
    hide FreqKey, GainKey, BwKey, Setup.Design, Coefs.Passive, BandState.Glide;
    TickKeepsValid(s.wet);
    TickBetween(s.wet);
    hide RampState.Tick, RampState.Valid;
    var faded := s.(wet := s.wet.Tick());
    if s.Moving() {
      GlideFades(s, e, s.wet.Tick());
      GlideIsGood(s, e);
    }
  }

  lemma GlideFades(s: BandState, e: Setup, w: RampState)
    requires e.Ok() && s.target.Valid()
    ensures s.(wet := w).Glide(e) == s.Glide(e).(wet := w)
  {
    hide Setup.Design, Coefs.Passive, RampState.Tick;
  }

  lemma TickedIsGood(s: BandState, e: Setup, ch: nat, x: real)
    requires e.Ok() && s.Good(e)
    ensures s.Ticked(ch, x).Good(e)
  {
    hide FreqKey, GainKey, BwKey, Setup.Design, Coefs.Passive, Next;
  }

  lemma ResetIsGood(s: BandState, e: Setup)
    requires e.Ok() && s.Good(e)
    ensures s.Reset().Good(e)
  {
    hide FreqKey, GainKey, BwKey, Setup.Design, Coefs.Passive;
  }

  // ----- every run of one band

  datatype BandOp = SetTo(b: Band) | AdvanceOne | TickOne(ch: nat, x: real) | Clear

  function Apply(s: BandState, e: Setup, op: BandOp): BandState
    requires e.Ok() && s.Good(e)
  {
    match op
    case SetTo(b) => if b.Valid() then s.Set(e, b) else s
    case AdvanceOne => s.Advance(e)
    case TickOne(ch, x) => s.Ticked(ch, x)
    case Clear => s.Reset()
  }

  lemma ApplyIsGood(s: BandState, e: Setup, op: BandOp)
    requires e.Ok() && s.Good(e)
    ensures Apply(s, e, op).Good(e)
  {
    hide BandState.Good, BandState.Set, BandState.Advance, BandState.Ticked, BandState.Reset;
    match op {
      case SetTo(b) => if b.Valid() { SetIsGood(s, e, b); }
      case AdvanceOne => AdvanceIsGood(s, e);
      case TickOne(ch, x) => TickedIsGood(s, e, ch, x);
      case Clear => ResetIsGood(s, e);
    }
  }

  function RunBand(s: BandState, e: Setup, ops: seq<BandOp>): BandState
    requires e.Ok() && s.Good(e)
    decreases |ops|
  {
    if ops == [] then s
    else
      ApplyIsGood(s, e, ops[0]);
      RunBand(Apply(s, e, ops[0]), e, ops[1..])
  }

  lemma {:induction false} RunKeepsGood(s: BandState, e: Setup, ops: seq<BandOp>)
    requires e.Ok() && s.Good(e)
    ensures RunBand(s, e, ops).Good(e)
    decreases |ops|
  {
    hide BandState.Good, Apply, Setup.Ok;
    if ops != [] {
      ApplyIsGood(s, e, ops[0]);
      RunKeepsGood(Apply(s, e, ops[0]), e, ops[1..]);
    }
  }

  /** Whatever sets, samples and resets a band has seen, at rest it has exactly the filter
      of its target, bypassed it has no state, and its ramps lead to the target's keys. */
  lemma RestIsExact(s: BandState, e: Setup, ops: seq<BandOp>)
    requires e.Ok() && s.Good(e)
    ensures RunBand(s, e, ops).Good(e)
    ensures var r := RunBand(s, e, ops);
            && (!r.Moving() ==> r.coefs == e.Design(r.target) && r.freq.value == FreqKey(e.maths, r.target)
                                && r.gain.value == GainKey(e.maths, r.target) && r.bw.value == BwKey(e.maths, r.target))
            && (r.Bypassed() ==> r.Silent() && !r.target.enabled)
            && r.coefs.Passive()
  {
    RunKeepsGood(s, e, ops);
    hide RunBand, FreqKey, GainKey, BwKey, Setup.Design, Coefs.Passive;
  }

  /** Between sets the filter changes only while the band moves, and then only on a step
      divisible by DESIGN_EVERY or on the step that lands. */
  lemma RedesignsOnlyOnSchedule(s: BandState, e: Setup, op: BandOp)
    requires e.Ok() && s.Good(e) && !op.SetTo?
    requires Apply(s, e, op).coefs != s.coefs
    ensures op.AdvanceOne? && s.Moving()
    ensures var r := Apply(s, e, op); r.step == (s.step + 1) % U32 && (Due(r.step) || !r.Moving())
  {
    hide Setup.Design, Coefs.Passive, RampState.Tick, BandState.Good;
  }

  lemma KeptOrCleared(s: BandState, e: Setup, op: BandOp, ch: nat)
    requires e.Ok() && s.Good(e) && ch < |s.state| == e.channels && !op.TickOne?
    ensures var r := Apply(s, e, op);
            |r.state| == e.channels && (r.state[ch] == s.state[ch] || r.state[ch] == ZERO)
  {
    hide Coefs.Passive, Maths.Sound, Setup.Design, FreqKey, GainKey, BwKey, RampState.Set, RampState.Tick;
  }

  lemma SilentTick(s: BandState, e: Setup, k: nat, ch: nat)
    requires s.coefs.Passive() && ch < |s.state| == e.channels
    ensures var r := s.Ticked(k, 0.0);
            |r.state| == e.channels && Energy(r.state[ch]) <= Energy(s.state[ch])
  {
    hide Energy, Next, Coefs.Passive;
    SilentNext(s.coefs, s.state[ch]);
  }

  lemma GoodIsPassive(s: BandState, e: Setup)
    requires e.Ok() && s.Good(e)
    ensures s.coefs.Passive()
  {
  }

  /** One operation on a silent band: a set or a reset keeps or clears the state, a sample
      of silence through a passive filter takes energy out. */
  lemma SilentOp(s: BandState, e: Setup, op: BandOp, ch: nat)
    requires e.Ok() && s.Good(e) && ch < |s.state| == e.channels && (op.TickOne? ==> op.x == 0.0)
    ensures |Apply(s, e, op).state| == e.channels
    ensures Energy(Apply(s, e, op).state[ch]) <= Energy(s.state[ch])
  {
    hide BandState.Good, Setup.Ok, Energy, BandState.Set, BandState.Advance, BandState.Ticked, BandState.Reset;
    if op.TickOne? {
      GoodIsPassive(s, e);
      hide Coefs.Passive;
      SilentTick(s, e, op.ch, ch);
    } else {
      KeptOrCleared(s, e, op, ch);
      EnergyNotNegative(s.state[ch]);
    }
  }

  lemma EnergyNotNegative(s: State)
    ensures Energy(s) >= 0.0 && Energy(ZERO) == 0.0
  {
  }

  /** However a band is set, swept, faded and reset on the way, on silent input the energy
      of each channel's state never rises. */
  lemma {:induction false} SilentBandNeverRings(s: BandState, e: Setup, ops: seq<BandOp>, ch: nat)
    requires e.Ok() && s.Good(e) && ch < |s.state| == e.channels
    requires forall i :: 0 <= i < |ops| && ops[i].TickOne? ==> ops[i].x == 0.0
    ensures |RunBand(s, e, ops).state| == e.channels
    ensures Energy(RunBand(s, e, ops).state[ch]) <= Energy(s.state[ch])
    decreases |ops|
  {
    if ops != [] {
      var r := Apply(s, e, ops[0]);
      hide BandState.Good, Apply, Setup.Ok, Energy;
      ApplyIsGood(s, e, ops[0]);
      SilentOp(s, e, ops[0], ch);
      SilentBandNeverRings(r, e, ops[1..], ch);
    }
  }

  // ----- any input, any sets

  /** What one operation can add to channel `ch`: a heard sample of it, what the filter of that
      moment lets it supply; anything else nothing. */
  function OpSupply(s: BandState, op: BandOp, ch: nat): real {
    if op.TickOne? && op.ch == ch && s.wet.value != 0.0 then Supply(s.coefs, op.x) else 0.0
  }

  function BandSupply(s: BandState, e: Setup, ops: seq<BandOp>, ch: nat): real
    requires e.Ok() && s.Good(e)
    decreases |ops|
  {
    if ops == [] then 0.0
    else
      ApplyIsGood(s, e, ops[0]);
      OpSupply(s, ops[0], ch) + BandSupply(Apply(s, e, ops[0]), e, ops[1..], ch)
  }

  /** No sample but silence meets an undamped filter. */
  predicate OpDamped(s: BandState, op: BandOp) {
    op.TickOne? ==> op.x == 0.0 || s.coefs.k > 0.0
  }

  ghost predicate RunDamped(s: BandState, e: Setup, ops: seq<BandOp>)
    requires e.Ok() && s.Good(e)
    decreases |ops|
  {
    if ops == [] then true
    else
      ApplyIsGood(s, e, ops[0]);
      OpDamped(s, ops[0]) && RunDamped(Apply(s, e, ops[0]), e, ops[1..])
  }

  lemma HeardTick(s: BandState, e: Setup, k: nat, x: real, ch: nat)
    requires s.coefs.Passive() && ch < |s.state| == e.channels && (x == 0.0 || s.coefs.k > 0.0)
    ensures var r := s.Ticked(k, x);
            && |r.state| == e.channels
            && Energy(r.state[ch]) <=
               Energy(s.state[ch]) + if k == ch && s.wet.value != 0.0 then Supply(s.coefs, x) else 0.0
  {
    hide Energy, Next, Coefs.Passive, Supply;
    TickEnergy(s.coefs, s.state[ch], x);
  }

  lemma OpEnergy(s: BandState, e: Setup, op: BandOp, ch: nat)
    requires e.Ok() && s.Good(e) && ch < |s.state| == e.channels && OpDamped(s, op)
    ensures |Apply(s, e, op).state| == e.channels
    ensures Energy(Apply(s, e, op).state[ch]) <= Energy(s.state[ch]) + OpSupply(s, op, ch)
  {
    hide BandState.Good, Setup.Ok, Energy, BandState.Set, BandState.Advance, BandState.Ticked, BandState.Reset, Supply;
    if op.TickOne? {
      GoodIsPassive(s, e);
      hide Coefs.Passive;
      HeardTick(s, e, op.ch, op.x, ch);
    } else {
      SilentOp(s, e, op, ch);
    }
  }

  /** However a band is set, swept, faded and reset on the way, and whatever it hears, a channel
      holds no more than it began with and what its samples supplied. */
  lemma {:induction false} BandEnergy(s: BandState, e: Setup, ops: seq<BandOp>, ch: nat)
    requires e.Ok() && s.Good(e) && ch < |s.state| == e.channels && RunDamped(s, e, ops)
    ensures |RunBand(s, e, ops).state| == e.channels
    ensures Energy(RunBand(s, e, ops).state[ch]) <= Energy(s.state[ch]) + BandSupply(s, e, ops, ch)
    decreases |ops|
  {
    if ops != [] {
      var r := Apply(s, e, ops[0]);
      hide BandState.Good, Apply, Setup.Ok, Energy, OpDamped, OpSupply;
      ApplyIsGood(s, e, ops[0]);
      OpEnergy(s, e, ops[0], ch);
      BandEnergy(r, e, ops[1..], ch);
    }
  }

  /** A band that is no shelf, with a damped filter. */
  predicate Damped(s: BandState) {
    !IsShelf(s.target) && s.coefs.k > 0.0
  }

  lemma DesignIsDamped(e: Setup, b: Band)
    requires e.Ok() && e.maths.Strict() && b.Valid() && !IsShelf(b)
    ensures e.Design(b).k > 0.0
  {
    hide Coefs.Passive, Maths.Sound, Maths.Strict;
    DampedExactly(e.maths, b, e.rate);
  }

  lemma ApplyDamped(s: BandState, e: Setup, op: BandOp)
    requires e.Ok() && e.maths.Strict() && s.Good(e) && Damped(s) && (op.SetTo? ==> !IsShelf(op.b))
    ensures Damped(Apply(s, e, op))
  {
    assert s.target.Valid();
    hide BandState.Good, Setup.Design, Coefs.Passive, Maths.Sound, Maths.Strict, RampState.Set, RampState.Tick,
      FreqKey, GainKey, BwKey, Next;
    match op {
      case SetTo(b) => if b.Valid() { DesignIsDamped(e, b); }
      case AdvanceOne =>
        DesignIsDamped(e, s.target);
        if s.Moving() {
          var faded := s.(wet := s.wet.Tick());
          var next := faded.(freq := s.freq.Tick(), gain := s.gain.Tick(), bw := s.bw.Tick(),
                             step := (s.step + 1) % U32);
          DesignIsDamped(e, next.Present(e));
        }
      case TickOne(ch, x) =>
      case Clear =>
    }
  }

  /** High-pass, notch and peak bands are damped throughout, whatever they are set to and while
      they glide, so the energy bound is theirs on every input. */
  lemma {:induction false} NoShelfIsDamped(s: BandState, e: Setup, ops: seq<BandOp>)
    requires e.Ok() && e.maths.Strict() && s.Good(e) && Damped(s)
    requires forall i :: 0 <= i < |ops| && ops[i].SetTo? ==> !IsShelf(ops[i].b)
    ensures RunDamped(s, e, ops) && Damped(RunBand(s, e, ops))
    decreases |ops|
  {
    if ops != [] {
      hide BandState.Good, Apply, Setup.Ok, Maths.Strict;
      ApplyIsGood(s, e, ops[0]);
      ApplyDamped(s, e, ops[0]);
      NoShelfIsDamped(Apply(s, e, ops[0]), e, ops[1..]);
    }
  }

  // ----- the schedule of one glide

  function AdvanceN(s: BandState, e: Setup, n: nat): (r: BandState)
    requires e.Ok() && s.target.Valid()
    ensures r.target == s.target
    decreases n
  {
    if n == 0 then s else
      AdvanceKeepsTarget(AdvanceN(s, e, n - 1), e);
      AdvanceN(s, e, n - 1).Advance(e)
  }

  lemma AdvanceKeepsTarget(s: BandState, e: Setup)
    requires e.Ok() && s.target.Valid()
    ensures s.Advance(e).target == s.target
  {
    hide Setup.Design, Coefs.Passive, RampState.Tick;
  }

  function TickN(r: RampState, n: nat): RampState {
    if n == 0 then r else TickN(r, n - 1).Tick()
  }

  /** A ramp after n samples, in closed form. */
  lemma {:induction false} TickNIs(r: RampState, n: nat)
    requires r.Valid()
    ensures TickN(r, n).Valid() && TickN(r, n).target == r.target
    ensures TickN(r, n).left == if n <= r.left then r.left - n else 0
    ensures n <= r.left ==> TickN(r, n).value == r.value + Steps(n, r.step)
    ensures n < r.left ==> TickN(r, n).step == r.step
  {
    if n == 0 {
      OneMoreStep(0, r.step);
    } else {
      TickNIs(r, n - 1);
      TickKeepsValid(TickN(r, n - 1));
      OneMoreStep(n - 1, r.step);
      hide RampState.Tick, RampState.Valid, Steps;
    }
  }

  /** The settings a band is at, n samples into its glide. */
  function PresentAfter(s: BandState, e: Setup, n: nat): (b: Band)
    requires e.Ok()
    ensures b.Valid()
  {
    Interpolated(e.maths, s.target, TickN(s.freq, n).value, TickN(s.gain, n).value, TickN(s.bw, n).value)
  }

  lemma AdvanceRamps(s: BandState, e: Setup)
    requires e.Ok() && s.target.Valid()
    ensures var r := s.Advance(e);
            && (s.Moving() ==> r.freq == s.freq.Tick() && r.gain == s.gain.Tick() && r.bw == s.bw.Tick())
            && (!s.Moving() ==> r.freq == s.freq && r.gain == s.gain && r.bw == s.bw)
  {
    hide Setup.Design, Coefs.Passive, RampState.Tick, Interpolated;
  }

  lemma AdvanceStep(s: BandState, e: Setup)
    requires e.Ok() && s.target.Valid() && s.Moving()
    ensures s.Advance(e).step == (s.step + 1) % U32
  {
    hide Setup.Design, Coefs.Passive, RampState.Tick, Interpolated;
  }

  lemma AdvanceCoefs(s: BandState, e: Setup)
    requires e.Ok() && s.target.Valid() && s.Moving() && s.Advance(e).Moving()
    ensures var r := s.Advance(e);
            r.coefs == if Due(r.step) then e.Design(r.Present(e)) else s.coefs
  {
    hide Setup.Design, Coefs.Passive, RampState.Tick, Interpolated;
  }

  lemma StillMoving(s: BandState, e: Setup, n: nat)
    requires e.Ok() && s.target.Valid() && AdvanceN(s, e, n).Moving()
    ensures n > 0 ==> AdvanceN(s, e, n - 1).Moving()
  {
    if n > 0 {
      AdvanceRamps(AdvanceN(s, e, n - 1), e);
      hide BandState.Advance;
    }
  }

  /** All three ramps of a band tick together, once a sample. */
  lemma {:induction false} GlideTicks(s: BandState, e: Setup, n: nat)
    requires e.Ok() && s.target.Valid()
    ensures var r := AdvanceN(s, e, n);
            r.freq == TickN(s.freq, n) && r.gain == TickN(s.gain, n) && r.bw == TickN(s.bw, n)
    decreases n
  {
    hide BandState.Advance, Setup.Ok;
    if n > 0 {
      GlideTicks(s, e, n - 1);
      AdvanceRamps(AdvanceN(s, e, n - 1), e);
    }
  }

  lemma {:induction false} GlideSteps(s: BandState, e: Setup, n: nat)
    requires e.Ok() && s.target.Valid() && s.step == 0 && n < U32
    requires n > 0 ==> AdvanceN(s, e, n - 1).Moving()
    ensures AdvanceN(s, e, n).step == n
    decreases n
  {
    hide BandState.Advance, RampState.Tick, Setup.Ok, BandState.Moving;
    if n > 0 {
      StillMoving(s, e, n - 1);
      GlideSteps(s, e, n - 1);
      AdvanceStep(AdvanceN(s, e, n - 1), e);
    }
  }

  /** A glide is over within `len` samples, long before its step count wraps. */
  lemma GlideIsShort(s: BandState, e: Setup, n: nat)
    requires e.Ok() && s.Good(e) && AdvanceN(s, e, n).Moving()
    ensures n < e.len < U32
  {
    assert s.target.Valid() && s.freq.Valid() && s.gain.Valid() && s.bw.Valid();
    assert s.freq.left <= e.len && s.gain.left <= e.len && s.bw.left <= e.len < U32;
    hide BandState.Good, RampState.Valid, Setup.Ok, AdvanceN, TickN;
    StillMoving(s, e, n);
    GlideTicks(s, e, n);
    TickNIs(s.freq, n);
    TickNIs(s.gain, n);
    TickNIs(s.bw, n);
  }

  /** While a band glides from a new target, after n samples its filter is the design at
      the last multiple of DESIGN_EVERY samples: before the first one, the filter it had. */
  lemma {:induction false} GlideSchedule(s: BandState, e: Setup, n: nat)
    requires e.Ok() && s.target.Valid() && s.Good(e) && s.step == 0 && AdvanceN(s, e, n).Moving()
    ensures AdvanceN(s, e, n).coefs == FilterAfter(s, e, n)
    decreases n
  {
    hide *;
    AdvanceNUnfolds(s, e, n);
    if n > 0 {
      StillMoving(s, e, n);
      GlideIsShort(s, e, n);
      GlideSteps(s, e, n);
      GlidePresent(s, e, n);
      GlideSchedule(s, e, n - 1);
      AdvanceCoefs(AdvanceN(s, e, n - 1), e);
    }
    FilterAfterUnfolds(s, e, n);
  }

  /** The filter n samples into a glide: designed at the last due sample. */
  function FilterAfter(s: BandState, e: Setup, n: nat): Coefs
    requires e.Ok()
  {
    if n < DESIGN_EVERY then s.coefs else e.Design(PresentAfter(s, e, LastDue(n)))
  }

  lemma FilterAfterUnfolds(s: BandState, e: Setup, n: nat)
    requires e.Ok()
    ensures FilterAfter(s, e, n) == if n == 0 then s.coefs
                                    else if Due(n) then e.Design(PresentAfter(s, e, n)) else FilterAfter(s, e, n - 1)
  {
    hide Setup.Design, Setup.Ok, PresentAfter, Coefs.Passive;
    if n > 0 {
      LastDueStep(n);
    }
  }

  lemma AdvanceNUnfolds(s: BandState, e: Setup, n: nat)
    requires e.Ok() && s.target.Valid()
    ensures AdvanceN(s, e, n) == if n == 0 then s else AdvanceN(s, e, n - 1).Advance(e)
  {
  }

  lemma GlidePresent(s: BandState, e: Setup, n: nat)
    requires e.Ok() && s.target.Valid() && AdvanceN(s, e, n).Moving()
    ensures AdvanceN(s, e, n).Present(e) == PresentAfter(s, e, n)
  {
    hide Interpolated;
    StillMoving(s, e, n);
    GlideTicks(s, e, n);
    hide AdvanceN, TickN;
  }

  /** The last multiple of DESIGN_EVERY up to `n`. */
  function LastDue(n: nat): nat {
    n - n % DESIGN_EVERY
  }

  predicate Due(step: nat) {
    step % DESIGN_EVERY == 0
  }

  lemma LastDueStep(n: nat)
    requires n > 0
    ensures !Due(n) ==> LastDue(n) == LastDue(n - 1) && (n < DESIGN_EVERY <==> n - 1 < DESIGN_EVERY)
    ensures Due(n) ==> LastDue(n) == n && n >= DESIGN_EVERY
  {
  }

  // ----- where a glide leads, and through what

  function Advances(ops: seq<BandOp>): nat {
    if ops == [] then 0 else (if ops[0].AdvanceOne? then 1 else 0) + Advances(ops[1..])
  }

  /** All four ramps come to rest within so many samples. */
  ghost predicate RestsWithin(s: BandState, n: nat) {
    s.freq.left <= n && s.gain.left <= n && s.bw.left <= n && s.wet.left <= n
  }

  lemma OneNearer(s: BandState, e: Setup, op: BandOp, n: nat)
    requires e.Ok() && s.Good(e) && !op.SetTo? && RestsWithin(s, n)
    ensures Apply(s, e, op).target == s.target
    ensures RestsWithin(Apply(s, e, op), if op.AdvanceOne? && n > 0 then n - 1 else n)
  {
    hide Setup.Design, Coefs.Passive, FreqKey, GainKey, BwKey, Interpolated, Next;
  }

  lemma {:induction false} ComesToRest(s: BandState, e: Setup, ops: seq<BandOp>)
    requires e.Ok() && s.Good(e) && RestsWithin(s, Advances(ops))
    requires forall i :: 0 <= i < |ops| ==> !ops[i].SetTo?
    ensures RestsWithin(RunBand(s, e, ops), 0) && RunBand(s, e, ops).target == s.target
    decreases |ops|
  {
    hide BandState.Good, Apply, Setup.Ok, RestsWithin;
    if ops != [] {
      ApplyIsGood(s, e, ops[0]);
      OneNearer(s, e, ops[0], Advances(ops));
      ComesToRest(Apply(s, e, ops[0]), e, ops[1..]);
    }
  }

  /** After a set and `len` samples without another, whatever was played and cleared: exactly
      the filter of the settings, fully heard or bypassed. */
  lemma SetSettles(s: BandState, e: Setup, b: Band, ops: seq<BandOp>)
    requires e.Ok() && s.Good(e) && b.Valid() && Advances(ops) >= e.len
    requires forall i :: 0 <= i < |ops| ==> !ops[i].SetTo?
    ensures s.Set(e, b).Good(e)
    ensures var r := RunBand(s.Set(e, b), e, ops);
            r.target == b && !r.Moving() && r.coefs == e.Design(b) && !r.wet.Moving() && r.wet.value == Wet(b)
  {
    var t := s.Set(e, b);
    SetIsGood(s, e, b);
    SetTakes(s, e, b);
    LongestRamp(t, e, Advances(ops));
    ComesToRest(t, e, ops);
    RunKeepsGood(t, e, ops);
    hide BandState.Set, RunBand, FreqKey, GainKey, BwKey, Setup.Design, Coefs.Passive;
  }

  lemma LongestRamp(s: BandState, e: Setup, n: nat)
    requires e.Ok() && s.Good(e) && n >= e.len
    ensures RestsWithin(s, n)
  {
  }

  lemma {:induction false} TickNBetween(r: RampState, n: nat)
    requires r.Valid()
    ensures Between(r.value, TickN(r, n).value, r.target)
  {
    if n > 0 {
      TickNBetween(r, n - 1);
      TickNIs(r, n - 1);
      TickBetween(TickN(r, n - 1));
      hide RampState.Tick, RampState.Valid;
    }
  }

  predicate Between(x: real, y: real, z: real) {
    x <= y <= z || z <= y <= x
  }

  /** A key is the logarithm of its setting, floored: back from it comes the floored setting. */
  lemma KeysReturn(m: Maths, b: Band)
    requires m.Sound() && m.Inverse() && b.Valid()
    ensures m.exp2(FreqKey(m, b)) == Max(b.freqHz, 20.0)
    ensures m.exp2(BwKey(m, b)) == Max(b.bwOct, 0.01)
    ensures m.pow10(GainKey(m, b) / 20.0) == Max(b.gainLin, 0.000001)
  {
    if b.gainLin > 0.0 {
      var l := m.log10(b.gainLin);
      assert m.pow10(l) == b.gainLin;
      assert 20.0 * l / 20.0 == l;
      if l <= -6.0 {
        assert m.pow10(l) <= m.pow10(-6.0);
      } else {
        assert m.pow10(-6.0) <= m.pow10(l);
      }
    }
  }

  /** A glide goes from the old settings to the new ones without leaving the range between
      them: what the filter is designed from lies between them at every sample. */
  lemma GlideStaysBetween(s: BandState, e: Setup, b: Band, n: nat)
    requires e.Ok() && e.maths.Inverse() && s.Good(e) && !s.Moving() && b.Valid()
    requires b.kind == s.target.kind && !s.Bypassed()
    ensures s.Set(e, b).target.Valid()
    ensures var p := AdvanceN(s.Set(e, b), e, n).Present(e);
            && p.kind == b.kind
            && Between(Max(s.target.freqHz, 20.0), p.freqHz, Max(b.freqHz, 20.0))
            && Between(Max(s.target.bwOct, 0.01), p.bwOct, Max(b.bwOct, 0.01))
            && Between(Max(s.target.gainLin, 0.000001), p.gainLin, Max(b.gainLin, 0.000001))
  {
    var m, t := e.maths, s.Set(e, b);
    RampsLead(s, e, b);
    SetTakes(s, e, b);
    KeysReturn(m, s.target);
    KeysReturn(m, b);
    GlideTicks(t, e, n);
    TickNBetween(t.freq, n);
    TickNBetween(t.gain, n);
    TickNBetween(t.bw, n);
    var f, g, w := TickN(t.freq, n).value, TickN(t.gain, n).value, TickN(t.bw, n).value;
    assert AdvanceN(t, e, n).target == b;
    hide BandState.Set, BandState.Good, AdvanceN, TickN, FreqKey, GainKey, BwKey, Setup.Ok, Max, RampState.Valid,
      Maths.Inverse, Maths.Sound;
    Monotone2(m, FreqKey(m, s.target), f, FreqKey(m, b));
    Monotone2(m, BwKey(m, s.target), w, BwKey(m, b));
    Monotone10(m, GainKey(m, s.target), g, GainKey(m, b));
  }

  lemma Monotone2(m: Maths, x: real, y: real, z: real)
    requires m.Inverse() && Between(x, y, z)
    ensures Between(m.exp2(x), m.exp2(y), m.exp2(z))
  {
  }

  lemma Monotone10(m: Maths, x: real, y: real, z: real)
    requires m.Inverse() && Between(x, y, z)
    ensures Between(m.pow10(x / 20.0), m.pow10(y / 20.0), m.pow10(z / 20.0))
  {
  }

  lemma RampsLead(s: BandState, e: Setup, b: Band)
    requires e.Ok() && s.Good(e) && !s.Moving() && b.Valid() && b.kind == s.target.kind && !s.Bypassed()
    ensures var t, m := s.Set(e, b), e.maths;
            && t.target.Valid() && t.freq.Valid() && t.gain.Valid() && t.bw.Valid()
            && s.freq.value == FreqKey(m, s.target) && t.freq.target == FreqKey(m, b)
            && s.gain.value == GainKey(m, s.target) && t.gain.target == GainKey(m, b)
            && s.bw.value == BwKey(m, s.target) && t.bw.target == BwKey(m, b)
  {
    SetIsGood(s, e, b);
    SetTakes(s, e, b);
    hide BandState.Set, FreqKey, GainKey, BwKey, Setup.Design, Coefs.Passive;
  }
}
