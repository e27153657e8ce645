/**
The WAV codec of the offline backend: chunks read by a moving offset, PCM and float samples
decoded, 64-bit float files written. A 64-bit or 32-bit float is its bit pattern.
*/
module Wav {
  import opened Seqs
  import opened Options

  type Byte = b: nat | b < 256
  type Bytes = seq<Byte>

  const WORD: nat := 0x1_0000_0000_0000_0000
  type Word = w: nat | w < 0x1_0000_0000_0000_0000

  datatype Error = NotRiff | ShortFmt | ZeroChannels | DataBeforeFmt | Unsupported | NoData | TooBig

  datatype Result<T> = Ok(value: T) | Err(error: Error)

  /** A decoded sample: a float by its bits, or a PCM integer over full scale. */
  datatype Value = Double(word: nat) | Single(word: nat) | Pcm(value: real)

  /** Planar audio: `planes[channel][frame]`. */
  datatype Planar<T> = Planar(frames: nat, planes: seq<seq<T>>) {
    predicate Shaped() {
      forall c :: 0 <= c < |planes| ==> |planes[c]| == frames
    }
  }

  datatype Format = Format(code: nat, channels: nat, rate: nat, bits: nat)

  datatype Decoded = Decoded(rate: nat, audio: Planar<Value>)

  const PCM: nat := 1
  const FLOAT: nat := 3
  const EXTENSIBLE: nat := 0xFFFE
  const GUID_TAIL: Bytes :=
    [0x00, 0x00, 0x00, 0x00, 0x10, 0x00, 0x80, 0x00, 0x00, 0xAA, 0x00, 0x38, 0x9B, 0x71]
  const RIFF: Bytes := [0x52, 0x49, 0x46, 0x46]
  const WAVE: Bytes := [0x57, 0x41, 0x56, 0x45]
  const FMT: Bytes := [0x66, 0x6D, 0x74, 0x20]
  const DATA: Bytes := [0x64, 0x61, 0x74, 0x61]
  const U16: nat := 0x1_0000
  const U32: nat := 0x1_0000_0000

  // ----- little-endian numbers

  function Pow256(n: nat): (p: nat)
    ensures p >= 1
  {
    if n == 0 then 1 else 256 * Pow256(n - 1)
  }

  function Le(x: nat, n: nat): (b: Bytes)
    ensures |b| == n
  {
    if n == 0 then [] else [x % 256] + Le(x / 256, n - 1)
  }

  function FromLe(b: Bytes): (x: nat)
    ensures x < Pow256(|b|)
  {
    if b == [] then 0 else b[0] + 256 * FromLe(b[1..])
  }

  lemma {:induction false} LeRoundTrip(x: nat, n: nat)
    requires x < Pow256(n)
    ensures FromLe(Le(x, n)) == x
  {
    if n > 0 {
      LeRoundTrip(x / 256, n - 1);
      assert Le(x, n)[1..] == Le(x / 256, n - 1);
    }
  }

  lemma Widths()
    ensures Pow256(2) == U16 && Pow256(3) == 0x100_0000 && Pow256(4) == U32 && Pow256(8) == WORD
  {
    assert Pow256(1) == 256 && Pow256(2) == U16 && Pow256(3) == 0x100_0000 && Pow256(4) == U32;
    assert Pow256(5) == 256 * U32 && Pow256(6) == U16 * U32 && Pow256(7) == 0x100_0000 * U32;
  }

  // ----- formats and samples

  function ParseFmt(b: Bytes): Result<Format> {
    if |b| < 16 then Err(ShortFmt)
    else
      var code := FromLe(b[0..2]);
      if code == EXTENSIBLE && |b| < 26 then Err(ShortFmt)
      else if FromLe(b[2..4]) == 0 then Err(ZeroChannels)
      else Ok(Format(if code == EXTENSIBLE then FromLe(b[24..26]) else code,
                     FromLe(b[2..4]), FromLe(b[4..8]), FromLe(b[14..16])))
  }

  /** The two's complement reading of `x` in a field that counts to `full`. */
  function Signed(x: nat, full: nat): int {
    if 2 * x < full then x else x - full
  }

  function Sample(f: Format, s: Bytes): Option<Value> {
    if f.code == PCM && f.bits == 16 && |s| >= 2 then Some(Pcm(Signed(FromLe(s[..2]), U16) as real / 32768.0))
    else if f.code == PCM && f.bits == 24 && |s| >= 3 then
      Some(Pcm((Signed(FromLe([0] + s[..3]), U32) / 256) as real / 8388608.0))
    else if f.code == PCM && f.bits == 32 && |s| >= 4 then Some(Pcm(Signed(FromLe(s[..4]), U32) as real / 2147483648.0))
    else if f.code == FLOAT && f.bits == 32 && |s| >= 4 then Some(Single(FromLe(s[..4])))
    else if f.code == FLOAT && f.bits == 64 && |s| >= 8 then Some(Double(FromLe(s[..8])))
    else None
  }

  predicate Supported(f: Format) {
    Sample(f, [0, 0, 0, 0, 0, 0, 0, 0]).Some? && f.bits / 8 != 0
  }

  /** A supported format reads every slice of its width, so no sample falls back to zero. */
  lemma SupportedReads(f: Format, s: Bytes)
    requires Supported(f) && |s| == f.bits / 8
    ensures Sample(f, s).Some?
  {
  }

  /** Every PCM sample lies in [-1, 1), and the shifted 24-bit reading is the plain signed one. */
  lemma PcmRange(f: Format, s: Bytes)
    requires f.code == PCM && Sample(f, s).Some?
    ensures -1.0 <= Sample(f, s).value.value < 1.0
    ensures f.bits == 24 ==> Sample(f, s).value.value == Signed(FromLe(s[..3]), 0x100_0000) as real / 8388608.0
  {
    Widths();
    if f.bits == 24 {
      assert ([0] + s[..3])[1..] == s[..3];
    }
  }

  // ----- the reader

  function At(bytes: Bytes, at: nat): Bytes {
    if at <= |bytes| then bytes[at..] else []
  }

  function Upto(bytes: Bytes, n: nat): Bytes {
    if n <= |bytes| then bytes[..n] else bytes
  }

  /** The place of a sample in a data chunk, in samples. */
  function Slot(channels: nat, i: nat, c: nat): nat {
    i * channels + c
  }

  lemma SlotFits(channels: nat, frames: nat, i: nat, c: nat)
    requires i < frames && c < channels
    ensures Slot(channels, i, c) < frames * channels
  {
    assert (i + 1) * channels <= frames * channels;
  }

  /** The sample of frame `i` on channel `c`. */
  function SampleAt(f: Format, chunk: Bytes, i: nat, c: nat): Value {
    var lo := Slot(f.channels, i, c) * (f.bits / 8);
    match Sample(f, Upto(At(chunk, lo), f.bits / 8))
    case Some(v) => v
    case None => Double(0)
  }

  function DecodeData(f: Format, chunk: Bytes): (r: Planar<Value>)
    requires f.channels > 0 && f.bits / 8 > 0
    ensures r.Shaped() && |r.planes| == f.channels
  {
    var frames := |chunk| / (f.bits / 8 * f.channels);
    Planar(frames, seq(f.channels, c requires 0 <= c => seq(frames, i requires 0 <= i => SampleAt(f, chunk, i, c))))
  }

  /** What the chunks from here on decode to. */
  function Chunks(rest: Bytes, fmt: Option<Format>): Result<Decoded>
    requires fmt.Some? ==> fmt.value.channels > 0
    decreases |rest|
  {
    if |rest| < 8 then Err(NoData)
    else
      var len := FromLe(rest[4..8]);
      var chunk := Upto(rest[8..], len);
      var next := At(rest, 8 + len + len % 2);
      if rest[..4] == FMT then
        match ParseFmt(chunk)
        case Err(e) => Err(e)
        case Ok(f) => Chunks(next, Some(f))
      else if rest[..4] == DATA then
        if fmt.None? then Err(DataBeforeFmt)
        else if !Supported(fmt.value) then Err(Unsupported)
        else Ok(Decoded(fmt.value.rate, DecodeData(fmt.value, chunk)))
      else Chunks(next, fmt)
  }

  function Read(bytes: Bytes): Result<Decoded> {
    if |bytes| < 12 || bytes[..4] != RIFF || bytes[8..12] != WAVE then Err(NotRiff) else Chunks(bytes[12..], None)
  }

  // ----- the writer

  /** The first `n` samples of frame `i`. */
  function FrameBytes(audio: Planar<Word>, i: nat, n: nat): (b: Bytes)
    requires audio.Shaped() && i < audio.frames && n <= |audio.planes|
    ensures |b| == 8 * n
  {
    if n == 0 then [] else FrameBytes(audio, i, n - 1) + Le(audio.planes[n - 1][i], 8)
  }

  /** The first `n` frames. */
  function Body(audio: Planar<Word>, n: nat): (b: Bytes)
    requires audio.Shaped() && n <= audio.frames
    ensures |b| == 8 * (n * |audio.planes|)
  {
    if n == 0 then [] else
      assert n * |audio.planes| == (n - 1) * |audio.planes| + |audio.planes|;
      Body(audio, n - 1) + FrameBytes(audio, n - 1, |audio.planes|)
  }

  function FmtBody(rate: nat, channels: nat): (b: Bytes)
    ensures |b| == 40
  {
    Le(EXTENSIBLE, 2) + Le(channels, 2) + Le(rate, 4) + Le(rate * (8 * channels), 4) + Le(8 * channels, 2)
    + Le(64, 2) + Le(22, 2) + Le(64, 2) + Le(0, 4) + Le(FLOAT, 2) + GUID_TAIL
  }

  /** A chunk on disk: an odd one has a pad byte. */
  function Chunk(id: Bytes, body: Bytes, pad: Byte): (b: Bytes)
    ensures |b| == |id| + 4 + |body| + |body| % 2
  {
    id + Le(|body|, 4) + body + if |body| % 2 == 1 then [pad] else []
  }

  predicate Writable(rate: nat, channels: nat, frames: nat) {
    && 8 * channels < U16
    && 8 * (frames * channels) + 60 < U32
    && rate * (8 * channels) < U32
  }

  /** What a written file holds. */
  function Written(rate: nat, audio: Planar<Word>): Bytes
    requires audio.Shaped()
  {
    RIFF + Le(8 * (audio.frames * |audio.planes|) + 60, 4) + WAVE
    + Chunk(FMT, FmtBody(rate, |audio.planes|), 0) + Chunk(DATA, Body(audio, audio.frames), 0)
  }

  // ----- any chunks around the ones that matter

  datatype Piece = Piece(id: Bytes, body: Bytes, pad: Byte) {
    predicate WellFormed() {
      |id| == 4 && |body| < U32
    }

    function Bytes(): Bytes {
      Chunk(id, body, pad)
    }
  }

  function Flat(ps: seq<Piece>): Bytes {
    if ps == [] then [] else ps[0].Bytes() + Flat(ps[1..])
  }

  function OnlyFmt(ps: seq<Piece>): seq<Piece> {
    if ps == [] then [] else (if ps[0].id == FMT then [ps[0]] else []) + OnlyFmt(ps[1..])
  }

  /** A well-formed chunk is cut exactly where it ends. */
  lemma ChunkHead(p: Piece, rest: Bytes)
    requires p.WellFormed()
    ensures var s := p.Bytes() + rest;
            && |s| >= 8 && s[..4] == p.id && FromLe(s[4..8]) == |p.body| && Upto(s[8..], |p.body|) == p.body
            && At(s, 8 + |p.body| + |p.body| % 2) == rest
  {
    var s := p.Bytes() + rest;
    Widths();
    LeRoundTrip(|p.body|, 4);
    assert s[4..8] == Le(|p.body|, 4);
    assert s[..4] == p.id;
    assert Upto(s[8..], |p.body|) == p.body;
    assert At(s, 8 + |p.body| + |p.body| % 2) == rest;
  }

  /** What one chunk makes of what follows it. */
  function Meaning(id: Bytes, chunk: Bytes, next: Bytes, fmt: Option<Format>): Result<Decoded>
    requires fmt.Some? ==> fmt.value.channels > 0
  {
    if id == FMT then
      if ParseFmt(chunk).Err? then Err(ParseFmt(chunk).error) else Chunks(next, Some(ParseFmt(chunk).value))
    else if id == DATA then
      if fmt.None? then Err(DataBeforeFmt)
      else if !Supported(fmt.value) then Err(Unsupported)
      else Ok(Decoded(fmt.value.rate, DecodeData(fmt.value, chunk)))
    else Chunks(next, fmt)
  }

  lemma FirstChunk(rest: Bytes, fmt: Option<Format>, len: nat, chunk: Bytes, next: Bytes)
    requires fmt.Some? ==> fmt.value.channels > 0
    requires |rest| >= 8 && FromLe(rest[4..8]) == len && Upto(rest[8..], len) == chunk
    requires At(rest, 8 + len + len % 2) == next
    ensures Chunks(rest, fmt) == Meaning(rest[..4], chunk, next, fmt)
  {
    hide At, Upto, FromLe, ParseFmt, Supported, DecodeData;
  }

  lemma PieceRead(p: Piece, rest: Bytes, fmt: Option<Format>)
    requires p.WellFormed() && (fmt.Some? ==> fmt.value.channels > 0)
    ensures Chunks(p.Bytes() + rest, fmt) == Meaning(p.id, p.body, rest, fmt)
  {
    ChunkHead(p, rest);
    hide Piece.Bytes, Meaning, Chunks;
    FirstChunk(p.Bytes() + rest, fmt, |p.body|, p.body, rest);
  }

  /** Chunks other than `fmt ` in front of the data change nothing, wherever they stand, odd
      ones with their pad byte. */
  lemma {:induction false} UnknownChunksSkipped(ps: seq<Piece>, tail: Bytes, fmt: Option<Format>)
    requires forall i :: 0 <= i < |ps| ==> ps[i].WellFormed() && ps[i].id != DATA
    requires fmt.Some? ==> fmt.value.channels > 0
    ensures Chunks(Flat(ps) + tail, fmt) == Chunks(Flat(OnlyFmt(ps)) + tail, fmt)
  {
    hide Chunks, Piece.Bytes, Piece.WellFormed, Supported, DecodeData;
    if ps != [] {
      var p, rest := ps[0], Flat(ps[1..]) + tail;
      Regroup(p.Bytes(), Flat(ps[1..]), tail);
      PieceRead(p, rest, fmt);
      var kept := OnlyFmt(ps[1..]);
      if p.id == FMT {
        assert OnlyFmt(ps)[1..] == kept;
        Regroup(p.Bytes(), Flat(kept), tail);
        PieceRead(p, Flat(kept) + tail, fmt);
        if ParseFmt(p.body).Ok? {
          UnknownChunksSkipped(ps[1..], tail, Some(ParseFmt(p.body).value));
        }
      } else {
        assert OnlyFmt(ps) == kept;
        UnknownChunksSkipped(ps[1..], tail, fmt);
      }
    }
  }

  // ----- the round trip

  lemma FmtRead(rate: nat, channels: nat)
    requires rate < U32 && Writable(rate, channels, 0)
    ensures ParseFmt(FmtBody(rate, channels)) ==
            if channels == 0 then Err(ZeroChannels) else Ok(Format(FLOAT, channels, rate, 64))
  {
    FmtFields(rate, channels);
    Widths();
    hide FmtBody, Le, FromLe, Pow256;
    LeRoundTrip(EXTENSIBLE, 2);
    LeRoundTrip(channels, 2);
    LeRoundTrip(rate, 4);
    LeRoundTrip(64, 2);
    LeRoundTrip(FLOAT, 2);
  }

  lemma FmtFields(rate: nat, channels: nat)
    ensures var b := FmtBody(rate, channels);
            && b[0..2] == Le(EXTENSIBLE, 2) && b[2..4] == Le(channels, 2) && b[4..8] == Le(rate, 4)
            && b[14..16] == Le(64, 2) && b[24..26] == Le(FLOAT, 2)
  {
    hide Le;
    var head := Le(EXTENSIBLE, 2) + Le(channels, 2) + Le(rate, 4);
    var mid := Le(rate * (8 * channels), 4) + Le(8 * channels, 2) + Le(64, 2);
    var last := Le(22, 2) + Le(64, 2) + Le(0, 4) + Le(FLOAT, 2) + GUID_TAIL;
    assert FmtBody(rate, channels) == head + mid + last;
    assert head[0..2] == Le(EXTENSIBLE, 2) && head[2..4] == Le(channels, 2) && head[4..8] == Le(rate, 4);
    assert mid[6..8] == Le(64, 2);
    assert last[8..10] == Le(FLOAT, 2);
  }

  lemma {:induction false} FrameAt(audio: Planar<Word>, i: nat, n: nat, c: nat)
    requires audio.Shaped() && i < audio.frames && c < n <= |audio.planes|
    ensures FrameBytes(audio, i, n)[8 * c..8 * c + 8] == Le(audio.planes[c][i], 8)
  {
    var head := FrameBytes(audio, i, n - 1);
    if c < n - 1 {
      FrameAt(audio, i, n - 1, c);
      assert FrameBytes(audio, i, n)[8 * c..8 * c + 8] == head[8 * c..8 * c + 8];
    } else {
      var last := Le(audio.planes[c][i], 8);
      Later(head, last, 0);
      assert last[0..8] == last;
    }
  }

  lemma {:induction false} BodyAt(audio: Planar<Word>, n: nat, i: nat, c: nat)
    requires audio.Shaped() && i < n <= audio.frames && c < |audio.planes|
    ensures 8 * Slot(|audio.planes|, i, c) + 8 <= |Body(audio, n)|
    ensures Body(audio, n)[8 * Slot(|audio.planes|, i, c)..8 * Slot(|audio.planes|, i, c) + 8] ==
              Le(audio.planes[c][i], 8)
  {
    var channels := |audio.planes|;
    var lo := 8 * Slot(channels, i, c);
    SlotFits(channels, n, i, c);
    var head, last := Body(audio, n - 1), FrameBytes(audio, n - 1, channels);
    assert Body(audio, n) == head + last;
    if i < n - 1 {
      BodyAt(audio, n - 1, i, c);
      assert Body(audio, n)[lo..lo + 8] == head[lo..lo + 8];
    } else {
      FrameAt(audio, i, channels, c);
      assert lo == |head| + 8 * c;
      Later(head, last, 8 * c);
    }
  }

  lemma Later(a: Bytes, b: Bytes, at: nat)
    requires at + 8 <= |b|
    ensures (a + b)[|a| + at..|a| + at + 8] == b[at..at + 8]
  {
  }

  lemma FramesBack(frames: nat, channels: nat)
    requires channels > 0
    ensures 8 * (frames * channels) / (8 * channels) == frames
  {
    assert 8 * (frames * channels) == frames * (8 * channels);
    WholeQuotient(frames, 8 * channels);
  }

  lemma MultipleIsLarge(k: int, d: int)
    requires d > 0
    ensures k == 0 || k * d >= d || k * d <= -d
  {
    if k > 0 {
      assert (k - 1) * d >= 0;
    } else if k < 0 {
      assert (-k - 1) * d >= 0;
    }
  }

  lemma Euclid(x: int, d: int)
    requires d > 0
    ensures x == (x / d) * d + x % d && 0 <= x % d < d
  {
  }

  lemma WholeQuotient(a: nat, d: nat)
    requires d > 0
    ensures a * d / d == a
  {
    var x := a * d;
    Euclid(x, d);
    assert (a - x / d) * d == x % d;
    MultipleIsLarge(a - x / d, d);
  }

  /** The audio as the reader gives it: each float with its own bits. */
  function AsRead(audio: Planar<Word>): Planar<Value> {
    Planar(audio.frames, seq(|audio.planes|, c requires 0 <= c < |audio.planes| =>
                               seq(|audio.planes[c]|,
                                   i requires 0 <= i < |audio.planes[c]| => Double(audio.planes[c][i]))))
  }

  lemma DataSampleBack(rate: nat, audio: Planar<Word>, i: nat, c: nat)
    requires audio.Shaped() && i < audio.frames && c < |audio.planes|
    ensures SampleAt(Format(FLOAT, |audio.planes|, rate, 64), Body(audio, audio.frames), i, c) ==
              Double(audio.planes[c][i])
  {
    var channels, body := |audio.planes|, Body(audio, audio.frames);
    BodyAt(audio, audio.frames, i, c);
    var lo := 8 * Slot(channels, i, c);
    Widths();
    var w := audio.planes[c][i];
    LeRoundTrip(w, 8);
    assert Slot(channels, i, c) * (64 / 8) == lo;
    hide Slot, Body, Le, FromLe;
    assert Upto(At(body, lo), 8) == body[lo..lo + 8];
    assert Le(w, 8)[..8] == Le(w, 8);
  }

  lemma DataBack(rate: nat, audio: Planar<Word>)
    requires audio.Shaped() && |audio.planes| > 0
    ensures DecodeData(Format(FLOAT, |audio.planes|, rate, 64), Body(audio, audio.frames)) == AsRead(audio)
  {
    var f, body := Format(FLOAT, |audio.planes|, rate, 64), Body(audio, audio.frames);
    var x, y := DecodeData(f, body), AsRead(audio);
    FramesBack(audio.frames, |audio.planes|);
    assert x.frames == audio.frames;
    forall c | 0 <= c < |audio.planes| ensures x.planes[c] == y.planes[c] {
      forall i | 0 <= i < audio.frames ensures x.planes[c][i] == y.planes[c][i] {
        DataSampleBack(rate, audio, i, c);
      }
    }
  }

  lemma WrittenLayout(rate: nat, audio: Planar<Word>, tail: Bytes)
    requires audio.Shaped()
    ensures var w := Written(rate, audio) + tail;
            && |w| >= 12 && w[..4] == RIFF && w[8..12] == WAVE
            && w[12..] == Chunk(FMT, FmtBody(rate, |audio.planes|), 0)
               + (Chunk(DATA, Body(audio, audio.frames), 0) + tail)
  {
    hide FmtBody, Body, Chunk, Le;
    var size := Le(8 * (audio.frames * |audio.planes|) + 60, 4);
    var fmt, data := Chunk(FMT, FmtBody(rate, |audio.planes|), 0), Chunk(DATA, Body(audio, audio.frames), 0);
    Regroup(RIFF + size + WAVE + fmt, data, tail);
    Regroup(RIFF + size + WAVE, fmt, data + tail);
    Headed(size, fmt + (data + tail));
  }

  lemma Headed(size: Bytes, rest: Bytes)
    requires |size| == 4
    ensures var w := RIFF + size + WAVE + rest;
            |w| >= 12 && w[..4] == RIFF && w[8..12] == WAVE && w[12..] == rest
  {
  }

  /** What is written reads back exactly, bytes after it ignored; audio of no channels is
      written and then refused. */
  lemma RoundTrip(rate: nat, audio: Planar<Word>, tail: Bytes)
    requires audio.Shaped() && rate < U32 && Writable(rate, |audio.planes|, audio.frames)
    ensures Read(Written(rate, audio) + tail) ==
            if |audio.planes| == 0 then Err(ZeroChannels) else Ok(Decoded(rate, AsRead(audio)))
  {
    hide Chunks, ParseFmt, FmtBody, Body, DecodeData, Supported, AsRead, Written, Chunk;
    var channels := |audio.planes|;
    var fmt := Piece(FMT, FmtBody(rate, channels), 0);
    var data := Piece(DATA, Body(audio, audio.frames), 0);
    assert FMT[0] != DATA[0];
    WrittenLayout(rate, audio, tail);
    FmtRead(rate, channels);
    FloatIsSupported(rate, channels);
    PieceRead(fmt, data.Bytes() + tail, None);
    if channels > 0 {
      var f := Format(FLOAT, channels, rate, 64);
      PieceRead(data, tail, Some(f));
      DataBack(rate, audio);
    }
  }

  lemma FloatIsSupported(rate: nat, channels: nat)
    ensures Supported(Format(FLOAT, channels, rate, 64))
  {
  }

  /** Unknown chunks put into a file before or after its format change nothing, whatever
      the rest holds. */
  lemma InsertedChunksIgnored(fmt: Piece, before: seq<Piece>, between: seq<Piece>, rest: Bytes)
    requires fmt.WellFormed() && fmt.id == FMT
    requires forall i :: 0 <= i < |before| ==> before[i].WellFormed() && before[i].id != DATA && before[i].id != FMT
    requires forall i :: 0 <= i < |between| ==> between[i].WellFormed() && between[i].id != DATA && between[i].id != FMT
    ensures Chunks(Flat(before) + (fmt.Bytes() + (Flat(between) + rest)), None) == Chunks(fmt.Bytes() + rest, None)
  {
    hide Chunks, ParseFmt, DecodeData, Supported, Piece.Bytes, Piece.WellFormed, Flat, OnlyFmt;
    assert FMT[0] != DATA[0];
    var after := fmt.Bytes() + (Flat(between) + rest);
    NoFmtKept(before);
    NoFmtKept(between);
    UnknownChunksSkipped(before, after, None);
    assert [] + after == after;
    PieceRead(fmt, Flat(between) + rest, None);
    PieceRead(fmt, rest, None);
    assert [] + rest == rest;
    if ParseFmt(fmt.body).Ok? {
      ParsedHasChannels(fmt.body);
      UnknownChunksSkipped(between, rest, Some(ParseFmt(fmt.body).value));
    }
  }

  lemma ParsedHasChannels(b: Bytes)
    requires ParseFmt(b).Ok?
    ensures ParseFmt(b).value.channels > 0
  {
  }

  lemma {:induction false} NoFmtKept(ps: seq<Piece>)
    requires forall i :: 0 <= i < |ps| ==> ps[i].id != FMT
    ensures Flat(OnlyFmt(ps)) == []
  {
    if ps != [] {
      NoFmtKept(ps[1..]);
    }
  }

  // ----- the codec as it runs

  lemma SupportedIsWide(f: Format)
    ensures Supported(f) ==> f.bits / 8 > 0
  {
  }

  lemma SampleAtIs(f: Format, chunk: Bytes, i: nat, c: nat, lo: nat)
    requires lo == (i * f.channels + c) * (f.bits / 8)
    ensures var x := Sample(f, Upto(At(chunk, lo), f.bits / 8));
            SampleAt(f, chunk, i, c) == if x.Some? then x.value else Double(0)
  {
    hide Sample, Upto, At;
  }

  /** The samples of a data chunk, frame by frame into their channels. */
  method Deinterleave(f: Format, chunk: Bytes) returns (audio: Planar<Value>)
    requires f.channels > 0 && Supported(f)
    ensures audio == DecodeData(f, chunk)
  {
    hide SampleAt, Sample, Upto, At, Supported;
    assert Supported(f) ==> f.bits / 8 > 0 by { SupportedIsWide(f); }
    var width := f.bits / 8;
    var frames := |chunk| / (width * f.channels);
    var planes := new Value[f.channels, frames]((_, _) => Double(0));
    var i := 0;
    while i < frames
      invariant 0 <= i <= frames
      invariant forall c, j :: 0 <= c < f.channels && 0 <= j < i ==> planes[c, j] == SampleAt(f, chunk, j, c)
    {
      FillFrame(f, chunk, planes, i);
      i := i + 1;
    }
    audio := Planar(frames, seq(f.channels, c requires 0 <= c < f.channels reads planes =>
                                  seq(frames,
                                      j requires 0 <= j < frames && 0 <= c < f.channels reads planes => planes[c, j])));
    ghost var want := DecodeData(f, chunk);
    assert forall c :: 0 <= c < f.channels ==> audio.planes[c] == want.planes[c];
  }

  /** One frame of the chunk, into frame `i` of every channel. */
  method FillFrame(f: Format, chunk: Bytes, planes: array2<Value>, i: nat)
    requires planes.Length0 == f.channels && i < planes.Length1
    modifies planes
    ensures forall c, j :: 0 <= c < f.channels && 0 <= j < planes.Length1 ==>
              planes[c, j] == if j == i then SampleAt(f, chunk, i, c) else old(planes[c, j])
  {
    hide SampleAt, Sample, Upto, At;
    var width := f.bits / 8;
    var c := 0;
    while c < f.channels
      invariant 0 <= c <= f.channels
      invariant forall k, j :: 0 <= k < f.channels && 0 <= j < planes.Length1 ==>
                  planes[k, j] == if j == i && k < c then SampleAt(f, chunk, i, k) else old(planes[k, j])
    {
      var x := Sample(f, Upto(At(chunk, (i * f.channels + c) * width), width));
      SampleAtIs(f, chunk, i, c, (i * f.channels + c) * width);
      planes[c, i] := if x.Some? then x.value else Double(0);
      c := c + 1;
    }
  }

  /** The reader: one chunk at a time, its offset moving past the chunk and its pad. */
  method ReadFile(bytes: Bytes) returns (r: Result<Decoded>)
    ensures r == Read(bytes)
  {
    hide DecodeData, ParseFmt, Supported, Chunks, FromLe, At, BodyOf;
    if |bytes| < 12 || bytes[..4] != RIFF || bytes[8..12] != WAVE {
      return Err(NotRiff);
    }
    var at := 12;
    assert At(bytes, 12) == bytes[12..] by { AtInside(bytes, 12); }
    var fmt: Option<Format> := None;
    while at + 8 <= |bytes|
      invariant at >= 12
      invariant fmt.Some? ==> fmt.value.channels > 0
      invariant Chunks(At(bytes, at), fmt) == Chunks(bytes[12..], None)
      decreases |bytes| - at
    {
      var id, len, body := bytes[at..at + 4], FromLe(bytes[at + 4..at + 8]), at + 8;
      var chunk := BodyOf(bytes, body, len);
      ChunkStep(bytes, at, fmt, len);
      if id == FMT {
        var f := ParseFmt(chunk);
        if f.Err? {
          return Err(f.error);
        }
        ParsedHasChannels(chunk);
        fmt := Some(f.value);
      } else if id == DATA {
        if fmt.None? {
          return Err(DataBeforeFmt);
        }
        if !Supported(fmt.value) {
          return Err(Unsupported);
        }
        var audio := Deinterleave(fmt.value, chunk);
        return Ok(Decoded(fmt.value.rate, audio));
      }
      at := body + len + len % 2;
    }
    NoMoreChunks(bytes, at, fmt);
    return Err(NoData);
  }

  lemma HeadOf(bytes: Bytes, at: nat, len: nat)
    requires at + 8 <= |bytes| && len == FromLe(bytes[at + 4..at + 8])
    ensures var rest := At(bytes, at);
            && |rest| >= 8 && rest[..4] == bytes[at..at + 4] && FromLe(rest[4..8]) == len
            && Upto(rest[8..], len) == BodyOf(bytes, at + 8, len)
            && At(rest, 8 + len + len % 2) == At(bytes, at + 8 + len + len % 2)
  {
    var rest := At(bytes, at);
    assert rest[4..8] == bytes[at + 4..at + 8];
    assert rest[..4] == bytes[at..at + 4];
    assert rest[8..] == bytes[at + 8..];
  }

  function BodyOf(bytes: Bytes, body: nat, len: nat): Bytes
    requires body <= |bytes|
  {
    if body + len <= |bytes| then bytes[body..body + len] else bytes[body..]
  }

  lemma ChunkStep(bytes: Bytes, at: nat, fmt: Option<Format>, len: nat)
    requires at + 8 <= |bytes| && len == FromLe(bytes[at + 4..at + 8])
    requires fmt.Some? ==> fmt.value.channels > 0
    ensures Chunks(At(bytes, at), fmt) ==
            Meaning(bytes[at..at + 4], BodyOf(bytes, at + 8, len), At(bytes, at + 8 + len + len % 2), fmt)
  {
    HeadOf(bytes, at, len);
    hide At, Upto, BodyOf, Meaning, Chunks, FromLe;
    FirstChunk(At(bytes, at), fmt, len, BodyOf(bytes, at + 8, len), At(bytes, at + 8 + len + len % 2));
  }

  lemma AtInside(bytes: Bytes, at: nat)
    requires at <= |bytes|
    ensures At(bytes, at) == bytes[at..]
  {
  }

  lemma NoMoreChunks(bytes: Bytes, at: nat, fmt: Option<Format>)
    requires |bytes| < at + 8 && (fmt.Some? ==> fmt.value.channels > 0)
    ensures Chunks(At(bytes, at), fmt) == Err(NoData)
  {
  }

  /** The writer: refused when a header field would not hold its number, else the file. */
  method WriteFile(rate: nat, audio: Planar<Word>) returns (r: Result<Bytes>)
    requires audio.Shaped() && rate < U32
    ensures r == if Writable(rate, |audio.planes|, audio.frames) then Ok(Written(rate, audio)) else Err(TooBig)
  {
    hide FmtBody, Le, GUID_TAIL, Written, Writable;
    WritableIs(rate, |audio.planes|, audio.frames);
    var channels := |audio.planes|;
    if channels >= U16 {
      return Err(TooBig);
    }
    var dataLen := channels * audio.frames * 8;
    assert dataLen == 8 * (audio.frames * channels);
    if dataLen >= U32 || dataLen + 60 >= U32 || channels * 8 >= U16 || rate * (channels * 8) >= U32 {
      return Err(TooBig);
    }
    var out := RIFF + Le(dataLen + 60, 4) + WAVE + FMT + Le(40, 4);
    out := out + FmtBody(rate, channels);
    out := out + DATA + Le(dataLen, 4);
    hide RIFF, WAVE, FMT, DATA;
    ghost var head := out;
    var i := 0;
    while i < audio.frames
      invariant 0 <= i <= audio.frames
      invariant out == head + Body(audio, i)
    {
      var c := 0;
      ghost var before := out;
      while c < channels
        invariant 0 <= c <= channels
        invariant out == before + FrameBytes(audio, i, c)
      {
        Regroup(before, FrameBytes(audio, i, c), Le(audio.planes[c][i], 8));
        out := out + Le(audio.planes[c][i], 8);
        c := c + 1;
      }
      Regroup(head, Body(audio, i), FrameBytes(audio, i, channels));
      i := i + 1;
    }
    WrittenIs(rate, audio, dataLen);
    return Ok(out);
  }

  lemma WritableIs(rate: nat, channels: nat, frames: nat)
    ensures Writable(rate, channels, frames) <==>
            channels * 8 < U16 && channels * frames * 8 + 60 < U32 && rate * (channels * 8) < U32
  {
    assert channels * frames == frames * channels;
  }

  lemma WrittenIs(rate: nat, audio: Planar<Word>, dataLen: nat)
    requires audio.Shaped() && dataLen == 8 * (audio.frames * |audio.planes|)
    ensures RIFF + Le(dataLen + 60, 4) + WAVE + FMT + Le(40, 4) + FmtBody(rate, |audio.planes|) + DATA + Le(dataLen, 4)
            + Body(audio, audio.frames) == Written(rate, audio)
  {
    hide FmtBody, Le, Body, Chunk;
    assert dataLen % 2 == 0;
    Layout(Le(dataLen + 60, 4), FmtBody(rate, |audio.planes|), Body(audio, audio.frames));
  }

  lemma Layout(size: Bytes, fmt: Bytes, body: Bytes)
    requires |fmt| == 40 && |body| % 2 == 0
    ensures RIFF + size + WAVE + FMT + Le(40, 4) + fmt + DATA + Le(|body|, 4) + body ==
            RIFF + size + WAVE + Chunk(FMT, fmt, 0) + Chunk(DATA, body, 0)
  {
    hide Le;
    var head := RIFF + size + WAVE;
    Regrouped(head, FMT, Le(40, 4), fmt);
    assert FMT + Le(40, 4) + fmt + [] == FMT + Le(40, 4) + fmt;
    Regrouped(head + FMT + Le(40, 4) + fmt, DATA, Le(|body|, 4), body);
    assert DATA + Le(|body|, 4) + body + [] == DATA + Le(|body|, 4) + body;
  }

  lemma Regrouped(a: Bytes, b: Bytes, c: Bytes, d: Bytes)
    ensures a + b + c + d == a + (b + c + d)
  {
  }
}
