/**
The equalizer under the offline backend: it is a processor that cannot tell where a block
was cut, so a render of it does not depend on the block size.
*/
module OfflineEqualizer {
  import opened Options
  import opened Bands
  import opened Equalizers
  import opened EqualizerUnit
  import opened Offline

  /** Frames back to channels. */
  function ByChannel(frames: seq<Frame>, channels: nat): (x: Planes)
    requires forall i :: 0 <= i < |frames| ==> |frames[i]| == channels
    ensures Shaped(x, channels, |frames|)
  {
    seq(channels, c requires 0 <= c < channels =>
                    seq(|frames|, i requires 0 <= i < |frames| => frames[i][c]))
  }

  lemma {:induction false} OutputShape(e: Setup, s: EqState, frames: seq<Frame>)
    requires e.Ok() && s.Good(e)
    ensures forall i :: 0 <= i < |frames| ==> |Equalizers.Process(e, s, frames).out[i]| == |frames[i]|
    decreases |frames|
  {
    if frames != [] {
      FrameIsGood(e, s, frames[0]);
      var row := ProcessFrame(e, s, frames[0]);
      assert |row.out| == |frames[0]|;
      hide Setup.Ok, EqState.Good, ProcessFrame;
      OutputShape(e, EqState(row.bands, s.global.Tick()), frames[1..]);
    }
  }

  /** One block of `n` frames through the equalizer; a state it never reaches panics. */
  ghost function Block(e: Setup, s: EqState, n: nat, x: Planes): Reply<EqState>
    requires e.Ok()
  {
    if s.Good(e) && Shaped(x, |x|, n) then
      OutputShape(e, s, Frames(x, n));
      var b := Equalizers.Process(e, s, Frames(x, n));
      Done(b.state, ByChannel(b.out, |x|))
    else Panic
  }

  ghost function AsProcessor(e: Setup): Processor<EqState>
    requires e.Ok()
  {
    (s: EqState, n: nat, x: Planes) => Block(e, s, n, x)
  }

  lemma FramesJoin(x: Planes, a: nat, b: nat)
    requires Shaped(x, |x|, a + b)
    ensures Frames(x, a + b) == Frames(Slice(x, a + b, 0, a), a) + Frames(Slice(x, a + b, a, b), b)
  {
    var whole, first, second := Frames(x, a + b), Frames(Slice(x, a + b, 0, a), a), Frames(Slice(x, a + b, a, b), b);
    forall i | 0 <= i < a + b ensures whole[i] == (first + second)[i] {
      if i < a {
        assert FrameAt(x, i) == FrameAt(Slice(x, a + b, 0, a), i);
      } else {
        assert FrameAt(x, i) == FrameAt(Slice(x, a + b, a, b), i - a);
      }
    }
  }

  lemma ChannelsJoin(fs: seq<Frame>, gs: seq<Frame>, channels: nat)
    requires forall i :: 0 <= i < |fs| ==> |fs[i]| == channels
    requires forall i :: 0 <= i < |gs| ==> |gs[i]| == channels
    ensures forall i :: 0 <= i < |fs + gs| ==> |(fs + gs)[i]| == channels
    ensures ByChannel(fs + gs, channels) == Join(ByChannel(fs, channels), ByChannel(gs, channels))
  {
    var whole, parts := ByChannel(fs + gs, channels), Join(ByChannel(fs, channels), ByChannel(gs, channels));
    forall c | 0 <= c < channels ensures whole[c] == parts[c] {
    }
  }

  lemma BlockIs(e: Setup, s: EqState, n: nat, x: Planes)
    requires e.Ok() && s.Good(e) && Shaped(x, |x|, n)
    ensures var b := Equalizers.Process(e, s, Frames(x, n));
            && b.state.Good(e) && |b.out| == n && (forall i :: 0 <= i < n ==> |b.out[i]| == |x|)
            && Block(e, s, n, x) == Done(b.state, ByChannel(b.out, |x|))
  {
    hide Setup.Ok, EqState.Good, Equalizers.Process;
    OutputShape(e, s, Frames(x, n));
  }

  lemma GoodBlocksJoin(e: Setup, s: EqState, x: Planes, a: nat, b: nat)
    requires e.Ok() && s.Good(e) && Shaped(x, |x|, a + b)
    ensures var first := Block(e, s, a, Slice(x, a + b, 0, a));
            && first.Done? && var second := Block(e, first.next, b, Slice(x, a + b, a, b));
            && second.Done? && |first.out| == |second.out|
            && Block(e, s, a + b, x) == Done(second.next, Join(first.out, second.out))
  {
    var x1, x2 := Slice(x, a + b, 0, a), Slice(x, a + b, a, b);
    FramesJoin(x, a, b);
    BlockIs(e, s, a + b, x);
    BlockIs(e, s, a, x1);
    hide Setup.Ok, EqState.Good, Equalizers.Process, Frames, Slice, Block, ByChannel, Join;
    var first := Equalizers.Process(e, s, Frames(x1, a));
    BlockIs(e, first.state, b, x2);
    BlocksJoin(e, s, Frames(x1, a), Frames(x2, b));
    ChannelsJoin(first.out, Equalizers.Process(e, first.state, Frames(x2, b)).out, |x|);
  }

  lemma BlockJoins(e: Setup, s: EqState, x: Planes, a: nat, b: nat)
    requires e.Ok() && Shaped(x, |x|, a + b)
    ensures Block(e, s, a + b, x) == Then(AsProcessor(e), s, x, a, b)
  {
    if s.Good(e) {
      GoodBlocksJoin(e, s, x, a, b);
      hide Setup.Ok, EqState.Good, Slice, Block, Join;
    } else {
      hide Setup.Ok, EqState.Good;
    }
  }

  lemma FillsBlocks(e: Setup, channels: nat)
    requires e.Ok()
    ensures Fills(AsProcessor(e), channels, channels)
  {
    hide EqState.Good, Setup.Ok, Equalizers.Process;
  }

  lemma CutsNeverShow(e: Setup, channels: nat)
    requires e.Ok()
    ensures SplitRespecting(AsProcessor(e), channels)
  {
    hide EqState.Good, Block, Then, Setup.Ok;
    var p := AsProcessor(e);
    forall t, x: Planes, a: nat, c: nat | a > 0 && c > 0 && Shaped(x, channels, a + c)
      ensures p(t, a + c, x) == Then(p, t, x, a, c)
    {
      BlockJoins(e, t, x, a, c);
    }
  }

  lemma NeverPanics(e: Setup, s: EqState, n: nat, x: Planes)
    requires e.Ok() && s.Good(e) && Shaped(x, |x|, n)
    ensures AsProcessor(e)(s, n, x).Done?
  {
    hide Setup.Ok, EqState.Good, Equalizers.Process;
  }

  /** The render of an equalizer is the same for every block size, 0 included, and never
      faults. */
  lemma RenderIgnoresBlockSize(e: Setup, s: EqState, input: Planes, frames: nat, b: nat, b': nat)
    requires e.Ok() && s.Good(e) && Shaped(input, |input|, frames)
    ensures Fills(AsProcessor(e), |input|, |input|)
    ensures var p := AsProcessor(e);
            var r := Run(p, s, input, frames, |input|, b);
            r == Run(p, s, input, frames, |input|, b') && r.fault.None?
  {
    hide EqState.Good, Setup.Ok, AsProcessor, Fills, SplitRespecting, RunFrom, Slice;
    FillsBlocks(e, |input|);
    CutsNeverShow(e, |input|);
    var p, size := AsProcessor(e), if b == 0 then 1 else b;
    BlockSizeNeverMatters(p, s, input, frames, |input|, b, b');
    if frames > 0 {
      RunIsOneBlock(p, s, input, frames, |input|, size, 0);
      NeverPanics(e, s, frames, Slice(input, frames, 0, frames));
    } else {
      RunFromEnd(p, s, input, frames, |input|, size);
    }
  }
}
