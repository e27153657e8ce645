/**
The offline backend: a processor run over a whole recording in blocks of any size, the
first fault ending the run. A processor is a function of its state and a block of
channels; `Panic` stands for a call that unwinds.
*/
module Offline {
  import opened Options

  type Planes = seq<seq<real>>

  datatype Reply<S> = Done(next: S, out: Planes) | Panic

  /** State, frames in the block, its input channels. */
  type Processor<!S> = (S, nat, Planes) -> Reply<S>

  /** What a run leaves: the output channels, and the frame of the block that faulted. */
  datatype Render = Render(out: Planes, fault: Option<nat>)

  ghost predicate Shaped(x: Planes, channels: nat, frames: nat) {
    |x| == channels && forall c :: 0 <= c < channels ==> |x[c]| == frames
  }

  function Slice(x: Planes, frames: nat, lo: nat, n: nat): (r: Planes)
    requires Shaped(x, |x|, frames) && lo + n <= frames
    ensures Shaped(r, |x|, n)
  {
    seq(|x|, c requires 0 <= c < |x| => x[c][lo..lo + n])
  }

  function Zeros(channels: nat, frames: nat): (r: Planes)
    ensures Shaped(r, channels, frames)
    ensures forall c, i :: 0 <= c < channels && 0 <= i < frames ==> r[c][i] == 0.0
  {
    seq(channels, c => seq(frames, i => 0.0))
  }

  function Join(x: Planes, y: Planes): (r: Planes)
    requires |x| == |y|
    ensures |r| == |x| && forall c :: 0 <= c < |x| ==> r[c] == x[c] + y[c]
  {
    seq(|x|, c requires 0 <= c < |x| => x[c] + y[c])
  }

  /** The processor answers a block with exactly its outputs. */
  ghost predicate Fills<S(!new)>(p: Processor<S>, inputs: nat, outputs: nat) {
    forall s, n: nat, x: Planes :: Shaped(x, inputs, n) && p(s, n, x).Done? ==> Shaped(p(s, n, x).out, outputs, n)
  }

  /** One block, then another. */
  ghost function Then<S>(p: Processor<S>, s: S, x: Planes, a: nat, b: nat): Reply<S>
    requires Shaped(x, |x|, a + b)
  {
    var first := p(s, a, Slice(x, a + b, 0, a));
    if first.Panic? then Panic
    else
      var second := p(first.next, b, Slice(x, a + b, a, b));
      if second.Panic? || |first.out| != |second.out| then Panic
      else Done(second.next, Join(first.out, second.out))
  }

  /** Cutting a block in two never shows. */
  ghost predicate SplitRespecting<S(!new)>(p: Processor<S>, inputs: nat) {
    forall s, x: Planes, a: nat, b: nat {:trigger Then(p, s, x, a, b)} ::
      a > 0 && b > 0 && Shaped(x, inputs, a + b) ==> p(s, a + b, x) == Then(p, s, x, a, b)
  }

  function Min(a: nat, b: nat): nat {
    if a <= b then a else b
  }

  /** The run from frame `done` on: the output's remaining frames. */
  ghost function RunFrom<S(!new)>(p: Processor<S>, s: S, input: Planes, frames: nat, outputs: nat, block: nat,
                                  done: nat): (r: Render)
    requires Shaped(input, |input|, frames) && block >= 1 && done <= frames && Fills(p, |input|, outputs)
    ensures Shaped(r.out, outputs, frames - done)
    decreases frames - done
  {
    if done == frames then Render(Zeros(outputs, 0), None)
    else
      var n := Min(block, frames - done);
      match p(s, n, Slice(input, frames, done, n))
      case Panic => Render(Zeros(outputs, frames - done), Some(done))
      case Done(next, out) =>
        var rest := RunFrom(p, next, input, frames, outputs, block, done + n);
        Render(Join(out, rest.out), rest.fault)
  }

  /** A whole run; block 0 is read as 1. */
  ghost function Run<S(!new)>(p: Processor<S>, s: S, input: Planes, frames: nat, outputs: nat, block: nat): Render
    requires Shaped(input, |input|, frames) && Fills(p, |input|, outputs)
  {
    RunFrom(p, s, input, frames, outputs, if block == 0 then 1 else block, 0)
  }

  // ----- block size never matters

  lemma SliceOfSlice(x: Planes, frames: nat, lo: nat, m: nat, a: nat, n: nat)
    requires Shaped(x, |x|, frames) && lo + m <= frames && a + n <= m
    ensures Slice(Slice(x, frames, lo, m), m, a, n) == Slice(x, frames, lo + a, n)
  {
    var y, z := Slice(Slice(x, frames, lo, m), m, a, n), Slice(x, frames, lo + a, n);
    forall c | 0 <= c < |x| ensures y[c] == z[c] {
      Cut(x[c], lo, m, a, n);
    }
  }

  lemma Cut(v: seq<real>, lo: nat, m: nat, a: nat, n: nat)
    requires lo + m <= |v| && a + n <= m
    ensures v[lo..lo + m][a..a + n] == v[lo + a..lo + a + n]
  {
    var x, y := v[lo..lo + m][a..a + n], v[lo + a..lo + a + n];
    assert forall i :: 0 <= i < n ==> x[i] == y[i];
  }

  lemma WholeSlice(x: Planes, n: nat)
    requires Shaped(x, |x|, n)
    ensures Slice(x, n, 0, n) == x
  {
    forall c | 0 <= c < |x| ensures x[c][0..n] == x[c] {
    }
  }

  lemma JoinNothing(x: Planes, outputs: nat, n: nat)
    requires Shaped(x, outputs, n)
    ensures Join(x, Zeros(outputs, 0)) == x
  {
    forall c | 0 <= c < |x| ensures x[c] + Zeros(outputs, 0)[c] == x[c] {
    }
  }

  /** From any frame on, any block size gives what one block over all the rest gives; and
      it faults exactly when that one does. */
  lemma {:induction false} RunIsOneBlock<S(!new)>(p: Processor<S>, s: S, input: Planes, frames: nat, outputs: nat,
                                                  block: nat, done: nat)
    requires Shaped(input, |input|, frames) && block >= 1 && done < frames
    requires Fills(p, |input|, outputs) && SplitRespecting(p, |input|)
    ensures var whole := p(s, frames - done, Slice(input, frames, done, frames - done));
            var r := RunFrom(p, s, input, frames, outputs, block, done);
            if whole.Done? then r == Render(whole.out, None) else r.fault.Some?
    decreases frames - done
  {
    var m := frames - done;
    var n := Min(block, m);
    var x := Slice(input, frames, done, m);
    var first := p(s, n, Slice(input, frames, done, n));
    if n == m {
      if first.Done? {
        assert Shaped(first.out, outputs, n);
        JoinNothing(first.out, outputs, n);
      }
    } else {
      SliceOfSlice(input, frames, done, m, 0, n);
      SliceOfSlice(input, frames, done, m, n, m - n);
      assert p(s, n + (m - n), x) == Then(p, s, x, n, m - n);
      if first.Done? {
        RunIsOneBlock(p, first.next, input, frames, outputs, block, done + n);
        var second := p(first.next, m - n, Slice(input, frames, done + n, m - n));
        assert Shaped(first.out, outputs, n);
        assert second.Done? ==> Shaped(second.out, outputs, m - n);
      }
    }
  }

  /** A processor that cannot tell where a block was cut renders the same for every block
      size, 0 included: all complete with one output, or all fault. */
  lemma BlockSizeNeverMatters<S(!new)>(p: Processor<S>, s: S, input: Planes, frames: nat, outputs: nat, b: nat, b': nat)
    requires Shaped(input, |input|, frames)
    requires Fills(p, |input|, outputs) && SplitRespecting(p, |input|)
    ensures var r, r' := Run(p, s, input, frames, outputs, b), Run(p, s, input, frames, outputs, b');
            (r.fault.None? <==> r'.fault.None?) && (r.fault.None? ==> r == r')
  {
    if frames > 0 {
      RunIsOneBlock(p, s, input, frames, outputs, if b == 0 then 1 else b, 0);
      RunIsOneBlock(p, s, input, frames, outputs, if b' == 0 then 1 else b', 0);
    }
  }

  // ----- the fault cut-off, for every processor

  lemma RunFromUnfolds<S(!new)>(p: Processor<S>, s: S, input: Planes, frames: nat, outputs: nat, block: nat, done: nat)
    requires Shaped(input, |input|, frames) && block >= 1 && done < frames && Fills(p, |input|, outputs)
    ensures var n := Min(block, frames - done);
            var r, first := RunFrom(p, s, input, frames, outputs, block, done), p(s, n, Slice(input, frames, done, n));
            if first.Panic? then r == Render(Zeros(outputs, frames - done), Some(done))
            else
              var rest := RunFrom(p, first.next, input, frames, outputs, block, done + n);
              Shaped(first.out, outputs, n) && r == Render(Join(first.out, rest.out), rest.fault)
  {
  }

  /** After a fault the output is zero from the faulting block on. */
  lemma {:induction false} FaultZeroes<S(!new)>(p: Processor<S>, s: S, input: Planes, frames: nat, outputs: nat,
                                                block: nat, done: nat, at: nat)
    requires Shaped(input, |input|, frames) && block >= 1 && done <= frames && Fills(p, |input|, outputs)
    requires RunFrom(p, s, input, frames, outputs, block, done).fault == Some(at)
    ensures done <= at < frames
    ensures var r := RunFrom(p, s, input, frames, outputs, block, done);
            forall c, i :: 0 <= c < outputs && at - done <= i < frames - done ==> r.out[c][i] == 0.0
    decreases frames - done
  {
    if done < frames {
      RunFromUnfolds(p, s, input, frames, outputs, block, done);
      var n := Min(block, frames - done);
      var r := RunFrom(p, s, input, frames, outputs, block, done);
      var first := p(s, n, Slice(input, frames, done, n));
      hide RunFrom, Slice, Fills;
      if first.Done? {
        var rest := RunFrom(p, first.next, input, frames, outputs, block, done + n);
        FaultZeroes(p, first.next, input, frames, outputs, block, done + n, at);
        forall c, i | 0 <= c < outputs && at - done <= i < frames - done ensures r.out[c][i] == 0.0 {
          assert r.out[c] == first.out[c] + rest.out[c];
          assert r.out[c][i] == rest.out[c][i - n];
        }
      }
    }
  }

  /** Before it, the output is exactly what a run over the shorter recording renders, which
      does not fault. */
  lemma {:induction false} FaultKeepsPrefix<S(!new)>(p: Processor<S>, s: S, input: Planes, frames: nat, outputs: nat,
                                                     block: nat, done: nat, at: nat)
    requires Shaped(input, |input|, frames) && block >= 1 && done <= at <= frames && Fills(p, |input|, outputs)
    requires RunFrom(p, s, input, frames, outputs, block, done).fault == Some(at)
    ensures RunFrom(p, s, Slice(input, frames, 0, at), at, outputs, block, done) ==
            Render(Slice(RunFrom(p, s, input, frames, outputs, block, done).out, frames - done, 0, at - done), None)
    decreases frames - done
  {
    hide Fills, Join, RunFrom;
    FaultZeroes(p, s, input, frames, outputs, block, done, at);
    RunFromUnfolds(p, s, input, frames, outputs, block, done);
    var n := Min(block, frames - done);
    var r := RunFrom(p, s, input, frames, outputs, block, done);
    var first := p(s, n, Slice(input, frames, done, n));
    var shorter := Slice(input, frames, 0, at);
    if first.Panic? {
      RunFromEnd(p, s, shorter, at, outputs, block);
      assert Slice(r.out, frames - done, 0, 0) == Zeros(outputs, 0);
    } else {
      var rest := RunFrom(p, first.next, input, frames, outputs, block, done + n);
      FaultZeroes(p, first.next, input, frames, outputs, block, done + n, at);
      FaultKeepsPrefix(p, first.next, input, frames, outputs, block, done + n, at);
      SliceOfSlice(input, frames, 0, at, done, n);
      RunFromUnfolds(p, s, shorter, at, outputs, block, done);
      JoinedPrefix(first.out, rest.out, outputs, n, frames - done - n, at - done - n);
      hide Slice;
    }
  }

  lemma RunFromEnd<S(!new)>(p: Processor<S>, s: S, input: Planes, frames: nat, outputs: nat, block: nat)
    requires Shaped(input, |input|, frames) && block >= 1 && Fills(p, |input|, outputs)
    ensures RunFrom(p, s, input, frames, outputs, block, frames) == Render(Zeros(outputs, 0), None)
  {
    hide Fills;
  }

  lemma JoinedPrefix(x: Planes, y: Planes, outputs: nat, n: nat, m: nat, k: nat)
    requires Shaped(x, outputs, n) && Shaped(y, outputs, m) && k <= m
    ensures Shaped(Join(x, y), outputs, n + m)
    ensures Slice(Join(x, y), n + m, 0, n + k) == Join(x, Slice(y, m, 0, k))
  {
    forall c | 0 <= c < outputs ensures (x[c] + y[c])[0..n + k] == x[c] + y[c][0..k] {
    }
  }

  // ----- the block loop, with its reused channel-major buffers

  lemma Room(c: nat, channels: nat, n: nat, size: nat)
    requires c < channels && channels * n <= size
    ensures 0 <= c * n && c * n + n <= size && (c + 1) * n == c * n + n
  {
    assert (c + 1) * n <= channels * n;
  }

  /** Channel `c` of a block laid out channel after channel. */
  function Channel(buf: seq<real>, channels: nat, n: nat, c: nat): (r: seq<real>)
    requires c < channels && channels * n <= |buf|
    ensures |r| == n
  {
    Room(c, channels, n, |buf|);
    buf[c * n..c * n + n]
  }

  function Unflatten(buf: seq<real>, channels: nat, n: nat): (r: Planes)
    requires channels * n <= |buf|
    ensures Shaped(r, channels, n)
  {
    seq(channels, c requires 0 <= c < channels => Channel(buf, channels, n, c))
  }

  /** Lays the channels of `x` out one after the other, each `n` long from `lo` on; what the
      buffer held before is left past them. */
  method Flatten(buf: array<real>, x: Planes, frames: nat, lo: nat, n: nat)
    requires Shaped(x, |x|, frames) && lo + n <= frames && |x| * n <= buf.Length
    modifies buf
    ensures Unflatten(buf[..], |x|, n) == Slice(x, frames, lo, n)
  {
    var c := 0;
    while c < |x|
      invariant 0 <= c <= |x|
      invariant forall k :: 0 <= k < c ==> Channel(buf[..], |x|, n, k) == x[k][lo..lo + n]
    {
      Room(c, |x|, n, buf.Length);
      CopyInto(buf, c * n, x[c][lo..lo + n]);
      forall k | 0 <= k < c ensures Channel(buf[..], |x|, n, k) == x[k][lo..lo + n] {
        Room(k, c, n, c * n);
      }
      c := c + 1;
    }
  }

  method CopyInto(dst: array<real>, at: nat, src: seq<real>)
    requires at + |src| <= dst.Length
    modifies dst
    ensures dst[at..at + |src|] == src
    ensures dst[..at] == old(dst[..at]) && dst[at + |src|..] == old(dst[at + |src|..])
    ensures forall lo, hi :: 0 <= lo <= hi <= at ==> dst[lo..hi] == old(dst[lo..hi])
  {
    for i := 0 to |src|
      invariant forall k :: 0 <= k < i ==> dst[at + k] == src[k]
      invariant forall k :: 0 <= k < dst.Length && !(at <= k < at + i) ==> dst[k] == old(dst[k])
    {
      dst[at + i] := src[i];
    }
    forall lo, hi | 0 <= lo <= hi <= at ensures dst[lo..hi] == old(dst[lo..hi]) {
      assert forall k :: lo <= k < hi ==> dst[k] == old(dst[k]);
    }
  }

  /** The output holds the first `done` frames of `planes`, and zeros. */
  ghost predicate Shows(output: array2<real>, planes: Planes, done: nat)
    reads output
  {
    && Shaped(planes, output.Length0, output.Length1)
    && forall c, i :: 0 <= c < output.Length0 && 0 <= i < output.Length1 ==>
         output[c, i] == if i < done then planes[c][i] else 0.0
  }

  /** The block's channels into the output, from frame `at` on. */
  method CopyOut(output: array2<real>, at: nat, block: Planes, n: nat, ghost planes: Planes)
    requires Shaped(block, output.Length0, n) && at + n <= output.Length1 && Shows(output, planes, at)
    requires forall c, i :: 0 <= c < output.Length0 && at <= i < at + n ==> planes[c][i] == block[c][i - at]
    modifies output
    ensures Shows(output, planes, at + n)
  {
    for c := 0 to output.Length0
      invariant forall k, i :: 0 <= k < output.Length0 && 0 <= i < output.Length1 ==>
                  output[k, i] == if i < at || (k < c && i < at + n) then planes[k][i] else 0.0
    {
      for j := 0 to n
        invariant forall k, i :: 0 <= k < output.Length0 && 0 <= i < output.Length1 ==>
                    output[k, i] == if i < at || (k < c && i < at + n) || (k == c && i < at + j)
                                    then planes[k][i] else 0.0
      {
        output[c, at + j] := block[c][j];
      }
    }
  }

  /** One call of the processor, through the reused buffers. */
  method Call<S(!new)>(p: Processor<S>, s: S, input: Planes, frames: nat, outputs: nat, size: nat, done: nat, n: nat,
                       ibuf: array<real>, obuf: array<real>) returns (reply: Reply<S>)
    requires Shaped(input, |input|, frames) && Fills(p, |input|, outputs) && done + n <= frames && n <= size
    requires ibuf != obuf && ibuf.Length == |input| * size && obuf.Length == outputs * size
    modifies ibuf, obuf
    ensures reply == p(s, n, Slice(input, frames, done, n))
    ensures outputs * n <= obuf.Length
    ensures reply.Done? ==> Unflatten(obuf[..], outputs, n) == reply.out
  {
    Smaller(|input|, n, size);
    Smaller(outputs, n, size);
    Flatten(ibuf, input, frames, done, n);
    reply := p(s, n, Unflatten(ibuf[..], |input|, n));
    if reply.Done? {
      assert Shaped(reply.out, outputs, n);
      WholeSlice(reply.out, n);
      Flatten(obuf, reply.out, n, 0, n);
    }
  }

  /** One block through the buffers: its frames in the output, or the fault. */
  method OneBlock<S(!new)>(p: Processor<S>, s: S, input: Planes, frames: nat, outputs: nat, size: nat, done: nat,
                           ibuf: array<real>, obuf: array<real>, output: array2<real>, ghost whole: Render)
    returns (reply: Reply<S>, n: nat)
    requires Shaped(input, |input|, frames) && Fills(p, |input|, outputs) && size > 0 && done < frames
    requires ibuf != obuf && ibuf.Length == |input| * size && obuf.Length == outputs * size
    requires output.Length0 == outputs && output.Length1 == frames && Shows(output, whole.out, done)
    requires Continues(whole, RunFrom(p, s, input, frames, outputs, size, done), outputs, frames, done)
    modifies ibuf, obuf, output
    ensures reply.Panic? ==> whole.fault == Some(done) && Shows(output, whole.out, frames)
    ensures reply.Done? ==>
              && 0 < n && done + n <= frames && Shows(output, whole.out, done + n)
              && Continues(whole, RunFrom(p, reply.next, input, frames, outputs, size, done + n), outputs, frames,
                 done + n)
  {
    hide RunFrom, Slice, Unflatten, Join, Fills, Zeros, Shows, Continues;
    n := Min(size, frames - done);
    reply := Call(p, s, input, frames, outputs, size, done, n, ibuf, obuf);
    ghost var rest := RunFrom(p, s, input, frames, outputs, size, done);
    RunFromUnfolds(p, s, input, frames, outputs, size, done);
    if reply.Panic? {
      Faulted(output, whole, rest, outputs, frames, done);
      return;
    }
    ghost var tail := RunFrom(p, reply.next, input, frames, outputs, size, done + n);
    Advance(whole, rest, reply.out, tail, outputs, frames, done, n);
    CopyOut(output, done, Unflatten(obuf[..], outputs, n), n, whole.out);
  }

  method RunOffline<S(!new)>(p: Processor<S>, s: S, input: Planes, frames: nat, outputs: nat, block: nat)
    returns (output: array2<real>, fault: Option<nat>)
    requires Shaped(input, |input|, frames) && Fills(p, |input|, outputs)
    ensures output.Length0 == outputs && output.Length1 == frames && fresh(output)
    ensures var r := Run(p, s, input, frames, outputs, block);
            fault == r.fault && forall c, i :: 0 <= c < outputs && 0 <= i < frames ==> output[c, i] == r.out[c][i]
  {
    var size := if block == 0 then 1 else block;
    output := new real[outputs, frames]((c, i) => 0.0);
    var ibuf := new real[|input| * size];
    var obuf := new real[outputs * size];
    ghost var whole := RunFrom(p, s, input, frames, outputs, size, 0);
    var state, done := s, 0;
    hide RunFrom, Slice, Unflatten, Join, Fills, Zeros;
    while done < frames
      invariant done <= frames && fresh(output) && fresh(ibuf) && fresh(obuf) && ibuf != obuf
      invariant ibuf.Length == |input| * size && obuf.Length == outputs * size
      invariant Shows(output, whole.out, done)
      invariant Continues(whole, RunFrom(p, state, input, frames, outputs, size, done), outputs, frames, done)
    {
      var reply, n := OneBlock(p, state, input, frames, outputs, size, done, ibuf, obuf, output, whole);
      if reply.Panic? {
        return output, Some(done);
      }
      state := reply.next;
      done := done + n;
    }
    RunFromEnd(p, state, input, frames, outputs, size);
    fault := None;
  }

  lemma Faulted(output: array2<real>, whole: Render, rest: Render, outputs: nat, frames: nat, done: nat)
    requires output.Length0 == outputs && output.Length1 == frames && Shows(output, whole.out, done)
    requires Continues(whole, rest, outputs, frames, done) && rest == Render(Zeros(outputs, frames - done), Some(done))
    ensures whole.fault == Some(done) && Shows(output, whole.out, frames)
  {
    forall c, i | 0 <= c < outputs && done <= i < frames ensures whole.out[c][i] == 0.0 {
      assert whole.out[c][i] == whole.out[c][done..][i - done];
    }
  }

  lemma Smaller(channels: nat, n: nat, size: nat)
    requires n <= size
    ensures channels * n <= channels * size
  {
  }

  /** `rest` is what `whole` still holds from frame `done` on. */
  ghost predicate Continues(whole: Render, rest: Render, outputs: nat, frames: nat, done: nat) {
    && done <= frames && Shaped(whole.out, outputs, frames) && Shaped(rest.out, outputs, frames - done)
    && whole.fault == rest.fault
    && forall c :: 0 <= c < outputs ==> whole.out[c][done..] == rest.out[c]
  }

  lemma Advance(whole: Render, rest: Render, out: Planes, tail: Render, outputs: nat, frames: nat, done: nat, n: nat)
    requires Continues(whole, rest, outputs, frames, done) && done + n <= frames
    requires Shaped(out, outputs, n) && Shaped(tail.out, outputs, frames - done - n)
    requires rest == Render(Join(out, tail.out), tail.fault)
    ensures Continues(whole, tail, outputs, frames, done + n)
    ensures forall c, i :: 0 <= c < outputs && done <= i < done + n ==> whole.out[c][i] == out[c][i - done]
  {
    forall c | 0 <= c < outputs
      ensures whole.out[c][done + n..] == tail.out[c]
      ensures forall i :: done <= i < done + n ==> whole.out[c][i] == out[c][i - done]
    {
      assert whole.out[c][done..] == out[c] + tail.out[c];
      assert whole.out[c][done + n..] == whole.out[c][done..][n..];
      forall i | done <= i < done + n ensures whole.out[c][i] == out[c][i - done] {
        assert whole.out[c][i] == whole.out[c][done..][i - done];
      }
    }
  }
}
