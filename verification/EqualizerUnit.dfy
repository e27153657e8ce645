/**
The equalizer as the engine holds it: an object that is set, reset and run over blocks of
samples in place.
*/
module EqualizerUnit {
  import opened Reals
  import opened Ramps
  import opened Designs
  import opened Bands
  import opened Equalizers
  import opened Cascades

  /** The flat layout a rejected band falls back to. */
  function StandardFlat(): (bs: seq<Band>)
    ensures |bs| == BANDS && forall i :: 0 <= i < |bs| ==> bs[i].Valid() && !bs[i].enabled
  {
    [Band(HighPass, false, 80.20834168547682, 1.0, 2.0),
     Band(LowShelf, false, 200.3077623397404, 1.0, 2.0),
     Band(Peak, false, 801.9398157380639, 1.0, 1.0),
     Band(Peak, false, 2996.2342070275295, 1.0, 1.0),
     Band(HighShelf, false, 8016.061124722856, 1.0, 2.0)]
  }

  /** A resting equalizer at `p`, with what cannot be taken left flat. */
  function Initial(e: Setup, p: EqParams): EqState
    requires e.Ok() && |p.bands| == BANDS
  {
    EqState(seq(BANDS, i requires 0 <= i < BANDS =>
                         New(e, if p.bands[i].Valid() then p.bands[i] else StandardFlat()[i])),
            Resting(if p.globalGain >= 0.0 then p.globalGain else 1.0, e.len))
  }

  lemma InitialIsGood(e: Setup, p: EqParams)
    requires e.Ok() && |p.bands| == BANDS
    ensures Initial(e, p).Good(e)
  {
    assert e.len >= 1;
    hide BandState.Good, New, Setup.Ok;
    forall i | 0 <= i < BANDS ensures Initial(e, p).bands[i].Good(e) {
      NewIsGood(e, if p.bands[i].Valid() then p.bands[i] else StandardFlat()[i]);
    }
  }

  /** The i-th sample of every channel. */
  function FrameAt(columns: seq<seq<real>>, i: nat): (f: Frame)
    requires forall c :: 0 <= c < |columns| ==> i < |columns[c]|
    ensures |f| == |columns|
  {
    seq(|columns|, c requires 0 <= c < |columns| => columns[c][i])
  }

  function Frames(columns: seq<seq<real>>, n: nat): (fs: seq<Frame>)
    requires forall c :: 0 <= c < |columns| ==> n <= |columns[c]|
    ensures |fs| == n
  {
    seq(n, i requires 0 <= i < n => FrameAt(columns, i))
  }

  ghost function Columns(chans: seq<array<real>>): (cs: seq<seq<real>>)
    reads chans
    ensures |cs| == |chans|
  {
    seq(|chans|, c requires 0 <= c < |chans| reads chans => chans[c][..])
  }

  ghost predicate Distinct(chans: seq<array<real>>) {
    forall a, b :: 0 <= a < b < |chans| ==> chans[a] != chans[b]
  }

  /** The channels start with these frames. */
  ghost predicate Holds(chans: seq<array<real>>, frames: seq<Frame>)
    reads chans
  {
    && (forall i :: 0 <= i < |frames| ==> |frames[i]| == |chans|)
    && (forall c, i :: 0 <= c < |chans| && 0 <= i < |frames| ==> i < chans[c].Length && chans[c][i] == frames[i][c])
  }

  class Equalizer {
    const e: Setup
    var bands: seq<BandState>
    var global: RampState

    ghost predicate Valid()
      reads this
    {
      e.Ok() && State().Good(e)
    }

    ghost function State(): EqState
      reads this
    {
      EqState(bands, global)
    }

    constructor (e: Setup, p: EqParams)
      requires e.Ok() && |p.bands| == BANDS
      ensures Valid() && this.e == e && State() == Initial(e, p)
    {
      InitialIsGood(e, p);
      this.e := e;
      bands := Initial(e, p).bands;
      global := Initial(e, p).global;
    }

    /** New targets; what is not valid is left as it was and answered with false. */
    method Set(p: EqParams) returns (ok: bool)
      requires Valid() && |p.bands| == BANDS
      modifies this
      ensures Valid() && State() == SetAll(e, old(State()), p)
      ensures ok == Accepted(p)
    {
      hide BandState.Good, BandState.Aimed, BandState.Set, Setup.Ok, RampState.Set;
      ghost var before := State();
      ok := true;
      var i := 0;
      while i < |bands|
        invariant 0 <= i <= |bands| == BANDS && global == before.global
        invariant forall k :: 0 <= k < i ==> bands[k] == SetIfValid(e, before.bands[k], p.bands[k])
        invariant forall k :: i <= k < |bands| ==> bands[k] == before.bands[k]
        invariant ok <==> forall k :: 0 <= k < i ==> p.bands[k].Valid()
      {
        if p.bands[i].Valid() {
          GoodIsAimed(e, bands[i]);
          bands := bands[i := bands[i].Set(e, p.bands[i])];
        } else {
          ok := false;
        }
        i := i + 1;
      }
      if p.globalGain >= 0.0 {
        global := global.Set(p.globalGain);
      } else {
        ok := false;
      }
      assert bands == SetBands(e, before.bands, p.bands);
      SetAllIsGood(e, before, p);
    }

    /** Zero every filter state. */
    method Reset()
      requires Valid()
      modifies this`bands
      ensures Valid() && State() == old(State()).Reset()
    {
      hide BandState.Good, BandState.Reset, Setup.Ok;
      ghost var before := State();
      var i := 0;
      while i < |bands|
        invariant 0 <= i <= |bands| == BANDS
        invariant forall k :: 0 <= k < i ==> bands[k] == before.bands[k].Reset()
        invariant forall k :: i <= k < |bands| ==> bands[k] == before.bands[k]
      {
        bands := bands[i := bands[i].Reset()];
        i := i + 1;
      }
      assert bands == before.Reset().bands;
      ResetAllIsGood(e, before);
    }

    method AdvanceAll()
      requires e.Ok() && forall i :: 0 <= i < |bands| ==> bands[i].target.Valid()
      modifies this`bands
      ensures bands == AdvanceBands(e, old(bands))
    {
      hide BandState.Advance, Setup.Ok;
      ghost var before := bands;
      var i := 0;
      while i < |bands|
        invariant 0 <= i <= |bands| == |before|
        invariant forall k :: 0 <= k < i ==> bands[k] == before[k].Advance(e)
        invariant forall k :: i <= k < |bands| ==> bands[k] == before[k]
      {
        bands := bands[i := bands[i].Advance(e)];
        i := i + 1;
      }
    }

    /** One sample of channel `ch` through the bands. */
    method RunSample(ch: nat, x: real) returns (y: real)
      modifies this`bands
      ensures Chain(bands, y) == Through(old(bands), ch, x)
    {
      assert Placing([], bands, bands, 0);
      hide BandState.Ticked, BandState.Heard, Through, Placing;
      ghost var before := bands;
      ghost var done: seq<BandState> := [];
      var i := 0;
      y := x;
      assert before[0..] == before && done + Through(before, ch, x).bands == Through(before, ch, x).bands;
      while i < |bands|
        invariant 0 <= i <= |bands| == |before| && Placing(done, bands, before, i)
        invariant Through(before, ch, x).bands == done + Through(before[i..], ch, y).bands
        invariant Through(before, ch, x).x == Through(before[i..], ch, y).x
      {
        var b := bands[i];
        var ticked := b.Ticked(ch, y);
        Placed(done, bands, before, i, ticked);
        OneMoreBand(done, before, i, ch, y);
        y := b.Heard(ch, y);
        bands := bands[i := ticked];
        done := done + [ticked];
        i := i + 1;
      }
      NoMoreBands(done, bands, before, ch, y);
    }

    /** The i-th sample of every channel, in place. */
    method RunFrame(chans: seq<array<real>>, i: nat, gain: real, ghost frame: Frame)
      requires Distinct(chans) && |frame| == |chans|
      requires forall c :: 0 <= c < |chans| ==> i < chans[c].Length && chans[c][i] == frame[c]
      modifies this`bands, chans
      ensures bands == Channels(old(bands), gain, frame, 0).bands
      ensures forall c :: 0 <= c < |chans| ==> chans[c][i] == Channels(old(bands), gain, frame, 0).out[c]
      ensures forall c, j :: 0 <= c < |chans| && 0 <= j < chans[c].Length && j != i ==> chans[c][j] == old(chans[c][j])
    {
      hide Product, Through, Channels;
      ghost var before := bands;
      ghost var done: Frame := [];
      var c := 0;
      assert done + Channels(bands, gain, frame, 0).out == Channels(bands, gain, frame, 0).out;
      while c < |chans|
        invariant 0 <= c <= |chans| && |done| == c
        invariant forall k :: 0 <= k < c ==> chans[k][i] == done[k]
        invariant forall k :: c <= k < |chans| ==> chans[k][i] == frame[k]
        invariant forall k, j :: 0 <= k < |chans| && 0 <= j < chans[k].Length && j != i ==>
                    chans[k][j] == old(chans[k][j])
        invariant Channels(before, gain, frame, 0).bands == Channels(bands, gain, frame, c).bands
        invariant Channels(before, gain, frame, 0).out == done + Channels(bands, gain, frame, c).out
      {
        OneMoreChannel(bands, gain, frame, c, done);
        var y := RunSample(c, chans[c][i]);
        chans[c][i] := Product(y, gain);
        done := done + [Product(y, gain)];
        c := c + 1;
      }
      NoMoreChannels(bands, gain, frame, done);
    }

    /** One sample of the whole equalizer. */
    method RunOne(chans: seq<array<real>>, i: nat, ghost frame: Frame)
      requires Valid() && Distinct(chans) && |frame| == |chans|
      requires forall c :: 0 <= c < |chans| ==> i < chans[c].Length && chans[c][i] == frame[c]
      modifies this, chans
      ensures Valid()
      ensures forall k :: 0 <= k < |old(bands)| ==> old(bands)[k].target.Valid()
      ensures var row := ProcessFrame(e, old(State()), frame);
              && State() == EqState(row.bands, old(global).Tick())
              && |row.out| == |chans| && forall c :: 0 <= c < |chans| ==> chans[c][i] == row.out[c]
      ensures forall c, j :: 0 <= c < |chans| && 0 <= j < chans[c].Length && j != i ==> chans[c][j] == old(chans[c][j])
    {
      FrameIsGood(e, State(), frame);
      hide Setup.Ok, EqState.Good, AdvanceBands, Channels, RampState.Tick;
      AdvanceAll();
      global := global.Tick();
      RunFrame(chans, i, global.value, frame);
    }

    /** The first frames of the channels, one after the other. */
    method RunBlock(chans: seq<array<real>>, ghost frames: seq<Frame>, n: nat)
      requires Valid() && Distinct(chans) && Holds(chans, frames) && n == |frames|
      modifies this, chans
      ensures Valid() && State() == Equalizers.Process(e, old(State()), frames).state
      ensures Holds(chans, Equalizers.Process(e, old(State()), frames).out)
      ensures forall c, j :: 0 <= c < |chans| && n <= j < chans[c].Length ==> chans[c][j] == old(chans[c][j])
    {
      hide Setup.Ok, EqState.Good, ProcessFrame, RampState.Tick, Equalizers.Process;
      ghost var before := State();
      ghost var done: seq<Frame> := [];
      var i := 0;
      assert frames[..0] == [];
      NoFrames(e, before);
      while i < n
        invariant 0 <= i <= n && Valid() && |done| == i
        invariant Equalizers.Process(e, before, frames[..i]) == Block(State(), done)
        invariant Holds(chans, done)
        invariant forall c, j :: 0 <= c < |chans| && i <= j < chans[c].Length ==> chans[c][j] == old(chans[c][j])
      {
        ghost var s := State();
        RunOne(chans, i, frames[i]);
        OneMoreFrame(e, before, frames, i, done, s);
        done := done + [ProcessFrame(e, s, frames[i]).out];
        i := i + 1;
      }
      assert frames[..n] == frames;
    }

    /** The block in place, as long as its shortest channel. */
    method Process(chans: seq<array<real>>) returns (n: nat)
      requires Valid() && Distinct(chans) && |chans| == e.channels
      modifies this, chans
      ensures Valid()
      ensures IsShortest(chans, n)
      ensures var block := Equalizers.Process(e, old(State()), Frames(old(Columns(chans)), n));
              && State() == block.state
              && Holds(chans, block.out)
      ensures e.maths.HalfAngles() && RestsSilent(old(State())) ==>
                forall c :: 0 <= c < |chans| ==> Plays(e, old(State()), old(chans[c][..])[..n], chans[c][..n])
      ensures forall c, j :: 0 <= c < |chans| && n <= j < chans[c].Length ==> chans[c][j] == old(chans[c][j])
    {
      hide Setup.Ok, EqState.Good, Equalizers.Process, RestsSilent, Plays, Maths.HalfAngles;
      n := Shortest(chans);
      ghost var s, frames := State(), Frames(Columns(chans), n);
      RunBlock(chans, frames, n);
      ghost var out := Equalizers.Process(e, s, frames).out;
      if e.maths.HalfAngles() && RestsSilent(s) {
        forall c | 0 <= c < |chans| ensures Plays(e, s, old(chans[c][..])[..n], chans[c][..n]) {
          assert Reaches(frames, c) && Column(frames, c) == old(chans[c][..])[..n];
          RestIsCookbooks(e, s, frames, c);
          assert Column(out, c) == chans[c][..n];
        }
      }
    }
  }

  lemma NoFrames(e: Setup, s: EqState)
    requires e.Ok() && s.Good(e)
    ensures Equalizers.Process(e, s, []) == Block(s, [])
  {
  }

  lemma OneMoreFrame(e: Setup, s0: EqState, frames: seq<Frame>, i: nat, done: seq<Frame>, s: EqState)
    requires e.Ok() && s0.Good(e) && s.Good(e) && i < |frames|
    requires Equalizers.Process(e, s0, frames[..i]) == Block(s, done)
    requires forall k :: 0 <= k < |s.bands| ==> s.bands[k].target.Valid()
    ensures var row := ProcessFrame(e, s, frames[i]);
            Equalizers.Process(e, s0, frames[..i + 1]) == Block(EqState(row.bands, s.global.Tick()), done + [row.out])
  {
    hide Setup.Ok, EqState.Good, ProcessFrame, RampState.Tick;
    assert frames[..i + 1] == frames[..i] + [frames[i]];
    BlocksJoin(e, s0, frames[..i], [frames[i]]);
    assert Equalizers.Process(e, s, [frames[i]]).out == [ProcessFrame(e, s, frames[i]).out];
  }

  /** The length of the shortest channel, 0 without one. */
  ghost predicate IsShortest(chans: seq<array<real>>, n: nat) {
    && (forall c :: 0 <= c < |chans| ==> n <= chans[c].Length)
    && (if chans == [] then n == 0 else exists c :: 0 <= c < |chans| && n == chans[c].Length)
  }

  method Shortest(chans: seq<array<real>>) returns (n: nat)
    ensures IsShortest(chans, n)
  {
    if chans == [] {
      return 0;
    }
    n := chans[0].Length;
    for c := 1 to |chans|
      invariant forall k :: 0 <= k < c ==> n <= chans[k].Length
      invariant exists k :: 0 <= k < c && n == chans[k].Length
    {
      if chans[c].Length < n {
        n := chans[c].Length;
      }
    }
  }

  /** The first `i` are replaced and the others are as they were. */
  ghost predicate Placing(done: seq<BandState>, now: seq<BandState>, bs: seq<BandState>, i: nat) {
    i <= |bs| && |done| == i && now == done + bs[i..]
  }

  lemma Placed(done: seq<BandState>, now: seq<BandState>, bs: seq<BandState>, i: nat, b: BandState)
    requires Placing(done, now, bs, i) && i < |bs|
    ensures |now| == |bs| && now[i] == bs[i] && Placing(done + [b], now[i := b], bs, i + 1)
  {
  }

  lemma OneMoreBand(done: seq<BandState>, bs: seq<BandState>, i: nat, ch: nat, y: real)
    requires i < |bs|
    ensures var rest := Through(bs[i + 1..], ch, bs[i].Heard(ch, y));
            && done + Through(bs[i..], ch, y).bands == done + [bs[i].Ticked(ch, y)] + rest.bands
            && Through(bs[i..], ch, y).x == rest.x
  {
    hide BandState.Ticked, BandState.Heard;
    assert bs[i..][0] == bs[i] && bs[i..][1..] == bs[i + 1..];
  }

  lemma NoMoreBands(done: seq<BandState>, now: seq<BandState>, bs: seq<BandState>, ch: nat, y: real)
    requires Placing(done, now, bs, |bs|)
    ensures done + Through(bs[|bs|..], ch, y).bands == now && Through(bs[|bs|..], ch, y).x == y
  {
  }

  lemma OneMoreChannel(bs: seq<BandState>, gain: real, frame: Frame, c: nat, done: Frame)
    requires c < |frame|
    ensures var next := Through(bs, c, frame[c]);
            var rest := Channels(next.bands, gain, frame, c + 1);
            && Channels(bs, gain, frame, c).bands == rest.bands
            && done + Channels(bs, gain, frame, c).out == done + [Product(next.x, gain)] + rest.out
  {
    hide Through, Product;
  }

  lemma NoMoreChannels(bs: seq<BandState>, gain: real, frame: Frame, done: Frame)
    ensures Channels(bs, gain, frame, |frame|).bands == bs && done + Channels(bs, gain, frame, |frame|).out == done
  {
  }
}
