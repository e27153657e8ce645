/**
Files in every format the reader takes, by an encoder of their own: what each sample of such
a file reads as.
*/
module WavFormats {
  import opened Options
  import opened Seqs
  import opened Wav

  datatype Kind = Pcm16 | Pcm24 | Pcm32 | Float32 | Float64 {
    predicate IsPcm() {
      Pcm16? || Pcm24? || Pcm32?
    }

    function Code(): nat {
      if IsPcm() then 1 else 3
    }

    /** Bytes in a sample. */
    function Width(): nat {
      match this
      case Pcm16 => 2
      case Pcm24 => 3
      case Pcm32 => 4
      case Float32 => 4
      case Float64 => 8
    }

    /** Half of what the sample's bytes count to: full scale. */
    function Half(): nat {
      match this
      case Pcm16 => 32768
      case Pcm24 => 8388608
      case Pcm32 => 2147483648
      case Float32 => 2147483648
      case Float64 => 9223372036854775808
    }

    /** Signed integers, or the words of floats. */
    predicate Holds(n: int) {
      if IsPcm() then 0 <= n + Half() < 2 * Half() else 0 <= n < 2 * Half()
    }

    /** Little-endian, a negative number in two's complement. */
    function Encode(n: int): (b: Bytes)
      requires Holds(n)
      ensures |b| == Width()
    {
      Le(if n < 0 then n + 2 * Half() else n, Width())
    }

    /** What a sample is meant to be: an integer over full scale, or a float by its bits. */
    function Meant(n: int): Value
      requires Holds(n)
    {
      match this
      case Float32 => Single(n)
      case Float64 => Double(n)
      case _ => Pcm(n as real / Half() as real)
    }

    function Format(channels: nat, rate: nat): Wav.Format {
      Wav.Format(Code(), channels, rate, 8 * Width())
    }
  }

  lemma HalfIs(k: Kind)
    ensures 2 * k.Half() == Pow256(k.Width())
  {
    Widths();
  }

  /** A sample decodes to the number it encodes, over full scale. */
  lemma SampleReads(k: Kind, n: int, channels: nat, rate: nat)
    requires k.Holds(n)
    ensures Sample(k.Format(channels, rate), k.Encode(n)) == Some(k.Meant(n))
  {
    HalfIs(k);
    var x := if n < 0 then n + 2 * k.Half() else n;
    hide Le, FromLe, Pow256, Sample;
    LeRoundTrip(x, k.Width());
    if k.IsPcm() {
      assert Signed(x, 2 * k.Half()) == n;
      PcmReads(k, k.Encode(n), channels, rate, n);
    } else {
      FloatReads(k, k.Encode(n), channels, rate, n);
    }
  }

  lemma PcmReads(k: Kind, s: Bytes, channels: nat, rate: nat, n: int)
    requires k.IsPcm() && |s| == k.Width() && Signed(FromLe(s), 2 * k.Half()) == n && k.Holds(n)
    ensures Sample(k.Format(channels, rate), s) == Some(k.Meant(n))
  {
    hide FromLe;
    match k {
      case Pcm16 => assert s[..2] == s;
      case Pcm24 =>
        assert s[..3] == s;
        HalfIs(k);
        WithLowByte(s);
        Shifted(FromLe(s));
      case Pcm32 => assert s[..4] == s;
    }
  }

  lemma WithLowByte(s: Bytes)
    ensures FromLe([0] + s) == 256 * FromLe(s)
  {
    assert ([0] + s)[1..] == s;
  }

  lemma FloatReads(k: Kind, s: Bytes, channels: nat, rate: nat, n: int)
    requires !k.IsPcm() && |s| == k.Width() && FromLe(s) == n && k.Holds(n)
    ensures Sample(k.Format(channels, rate), s) == Some(k.Meant(n))
  {
    hide FromLe;
    assert s[..k.Width()] == s;
  }

  lemma Shifted(x: nat)
    requires x < 0x100_0000
    ensures Signed(256 * x, U32) / 256 == Signed(x, 0x100_0000)
  {
  }

  lemma {:induction false} LeBack(b: Bytes)
    ensures Le(FromLe(b), |b|) == b
  {
    if b != [] {
      var rest := FromLe(b[1..]);
      LeBack(b[1..]);
      LowByte(b[0], rest);
      assert FromLe(b) == b[0] + 256 * rest;
      assert Le(FromLe(b), |b|) == [b[0]] + Le(rest, |b| - 1);
      hide Le, FromLe;
      assert [b[0]] + b[1..] == b;
    }
  }

  lemma LowByte(b: Byte, rest: nat)
    ensures (b + 256 * rest) % 256 == b && (b + 256 * rest) / 256 == rest
  {
  }

  /** Every slice of a sample's width is the encoding of a number. */
  lemma EverySlice(k: Kind, s: Bytes) returns (n: int)
    requires |s| == k.Width()
    ensures k.Holds(n) && k.Encode(n) == s
  {
    HalfIs(k);
    var x := FromLe(s);
    n := if k.IsPcm() && x >= k.Half() then x - 2 * k.Half() else x;
    hide Le, FromLe, Pow256;
    LeBack(s);
  }

  /** The formats the reader takes are these five and no others. */
  lemma SupportedExactly(f: Wav.Format)
    ensures Supported(f) <==> exists k: Kind :: f == k.Format(f.channels, f.rate)
  {
    if Supported(f) {
      var k := if f.code == 1 then (if f.bits == 16 then Pcm16 else if f.bits == 24 then Pcm24 else Pcm32)
               else if f.bits == 32 then Float32 else Float64;
      assert f == k.Format(f.channels, f.rate);
    }
  }

  // ----- whole files

  /** A format chunk, plain or extensible, that says so. */
  ghost predicate Says(b: Bytes, k: Kind, channels: nat, rate: nat) {
    && |b| >= 16 && 0 < channels < 0x1_0000 && rate < 0x1_0000_0000
    && (b[0..2] == Le(k.Code(), 2) || (b[0..2] == Le(0xFFFE, 2) && |b| >= 26 && b[24..26] == Le(k.Code(), 2)))
    && b[2..4] == Le(channels, 2) && b[4..8] == Le(rate, 4) && b[14..16] == Le(8 * k.Width(), 2)
  }

  lemma SaysRead(b: Bytes, k: Kind, channels: nat, rate: nat)
    requires Says(b, k, channels, rate)
    ensures ParseFmt(b) == Ok(k.Format(channels, rate)) && Supported(k.Format(channels, rate))
  {
    Widths();
    hide Le, FromLe, Pow256;
    LeRoundTrip(k.Code(), 2);
    LeRoundTrip(0xFFFE, 2);
    LeRoundTrip(channels, 2);
    LeRoundTrip(rate, 4);
    LeRoundTrip(8 * k.Width(), 2);
  }

  /** The audio of a data chunk: as many frames as it holds whole, and each sample the one whose
      encoding stands at its place, the channels of a frame side by side. */
  ghost predicate Plays(audio: Planar<Value>, k: Kind, channels: nat, data: Bytes)
    requires channels > 0
  {
    && audio.frames == |data| / (k.Width() * channels) && |audio.planes| == channels && audio.Shaped()
    && forall i, c :: 0 <= i < audio.frames && 0 <= c < channels ==>
         PlaysAt(audio.planes[c][i], k, channels, data, i, c)
  }

  ghost predicate PlaysAt(v: Value, k: Kind, channels: nat, data: Bytes, i: nat, c: nat) {
    var lo := Slot(channels, i, c) * k.Width();
    lo + k.Width() <= |data| && exists n :: k.Holds(n) && k.Encode(n) == data[lo..lo + k.Width()] && v == k.Meant(n)
  }

  lemma SlotInside(k: Kind, channels: nat, size: nat, i: nat, c: nat)
    requires channels > 0 && i < size / (k.Width() * channels) && c < channels
    ensures Slot(channels, i, c) * k.Width() + k.Width() <= size
  {
    var w, block := k.Width(), k.Width() * channels;
    Euclid(size, block);
    var frames := size / block;
    SlotFits(channels, frames, i, c);
    var slot, all := Slot(channels, i, c), frames * channels;
    assert (slot + 1) * w <= all * w;
    assert all * w == frames * block;
  }

  lemma SamplePlays(k: Kind, channels: nat, rate: nat, data: Bytes, i: nat, c: nat)
    requires channels > 0 && i < |data| / (k.Width() * channels) && c < channels
    ensures PlaysAt(SampleAt(k.Format(channels, rate), data, i, c), k, channels, data, i, c)
  {
    SlotInside(k, channels, |data|, i, c);
    var lo := Slot(channels, i, c) * k.Width();
    var s := data[lo..lo + k.Width()];
    assert Upto(At(data, lo), k.Width()) == s;
    var n := EverySlice(k, s);
    SampleReads(k, n, channels, rate);
    assert 8 * k.Width() / 8 == k.Width();
    hide Sample, Slot, Kind.Encode, Kind.Meant, Kind.Holds, Upto, At;
  }

  lemma DataPlays(k: Kind, channels: nat, rate: nat, data: Bytes)
    requires channels > 0
    ensures Plays(DecodeData(k.Format(channels, rate), data), k, channels, data)
  {
    var f := k.Format(channels, rate);
    var audio := DecodeData(f, data);
    assert f.bits / 8 == k.Width();
    forall i, c | 0 <= i < audio.frames && 0 <= c < channels
      ensures PlaysAt(audio.planes[c][i], k, channels, data, i, c)
    {
      SamplePlays(k, channels, rate, data, i, c);
      hide SampleAt, PlaysAt;
    }
    hide SampleAt, PlaysAt;
  }

  /** A name in a file, letter by letter. */
  function Ascii(s: string): Bytes
    requires forall i :: 0 <= i < |s| ==> s[i] as int < 128
  {
    seq(|s|, i requires 0 <= i < |s| => s[i] as int)
  }

  lemma NamesAre()
    ensures Ascii("RIFF") == RIFF && Ascii("WAVE") == WAVE && Ascii("fmt ") == FMT && Ascii("data") == DATA
  {
  }

  /** A file of any of these formats, other chunks anywhere and bytes after it: its rate, and
      its samples as they are meant. */
  lemma FileReads(k: Kind, channels: nat, rate: nat, size: Bytes, before: seq<Piece>, fmt: Piece, between: seq<Piece>,
                  data: Piece, tail: Bytes)
    requires |size| == 4 && fmt.WellFormed() && fmt.id == Ascii("fmt ") && data.WellFormed() && data.id == Ascii("data")
    requires Says(fmt.body, k, channels, rate)
    requires forall i :: 0 <= i < |before| ==> before[i].WellFormed() && before[i].id != DATA && before[i].id != FMT
    requires forall i :: 0 <= i < |between| ==> between[i].WellFormed() && between[i].id != DATA && between[i].id != FMT
    ensures var r := Read(Ascii("RIFF") + size + Ascii("WAVE")
                          + (Flat(before) + (fmt.Bytes() + (Flat(between) + (data.Bytes() + tail)))));
            r.Ok? && r.value.rate == rate && Plays(r.value.audio, k, channels, data.body)
  {
    hide Chunks, ParseFmt, DecodeData, Supported, Piece.Bytes, Piece.WellFormed, Flat, Plays, Ascii;
    NamesAre();
    assert FMT[0] != DATA[0];
    var rest := data.Bytes() + tail;
    Headed(size, Flat(before) + (fmt.Bytes() + (Flat(between) + rest)));
    InsertedChunksIgnored(fmt, before, between, rest);
    PieceRead(fmt, rest, None);
    SaysRead(fmt.body, k, channels, rate);
    hide Says;
    PieceRead(data, tail, Some(k.Format(channels, rate)));
    DataPlays(k, channels, rate, data.body);
  }

  // ----- the written header

  /** A number at a place of a file. */
  function Field(file: Bytes, at: nat, n: nat): nat
    requires at + n <= |file|
  {
    FromLe(file[at..at + n])
  }

  /** What any reader finds in a written file: its names, and its own size. */
  lemma HeaderIsRight(rate: nat, audio: Planar<Word>)
    requires audio.Shaped() && rate < U32 && Writable(rate, |audio.planes|, audio.frames)
    ensures var file := Written(rate, audio);
            && |file| == 68 + 8 * (audio.frames * |audio.planes|)
            && file[..4] == Ascii("RIFF") && Field(file, 4, 4) == |file| - 8 && file[8..12] == Ascii("WAVE")
            && file[12..16] == Ascii("fmt ") && Field(file, 16, 4) == 40
            && file[60..64] == Ascii("data") && Field(file, 64, 4) == |file| - 68
  {
    var file, n := Written(rate, audio), 8 * (audio.frames * |audio.planes|);
    HeaderParts(rate, audio, n);
    Widths();
    NamesAre();
    assert n + 60 < Pow256(4);
    hide Ascii, Written, Le, Pow256, Field, Planar.Shaped, FmtBody;
    FieldIs(file, 4, 4, n + 60);
    FieldIs(file, 16, 4, 40);
    FieldIs(file, 64, 4, n);
  }

  lemma FieldIs(file: Bytes, at: nat, n: nat, x: nat)
    requires at + n <= |file| && file[at..at + n] == Le(x, n) && x < Pow256(n)
    ensures Field(file, at, n) == x
  {
    hide Le, FromLe, Pow256;
    LeRoundTrip(x, n);
  }

  /** The format's fields: extensible 64-bit floats, sizes and rates of frames in agreement. */
  lemma FormatIsRight(rate: nat, audio: Planar<Word>)
    requires audio.Shaped() && rate < U32 && Writable(rate, |audio.planes|, audio.frames)
    ensures |Written(rate, audio)| >= 68
    ensures var fmt, channels := Written(rate, audio)[20..60], |audio.planes|;
            && Field(fmt, 0, 2) == 0xFFFE && Field(fmt, 2, 2) == channels && Field(fmt, 4, 4) == rate
            && Field(fmt, 8, 4) == rate * Field(fmt, 12, 2) && Field(fmt, 12, 2) == 8 * channels
            && Field(fmt, 14, 2) == 64 && Field(fmt, 16, 2) == 22 && Field(fmt, 18, 2) == 64
            && Field(fmt, 20, 4) == 0 && Field(fmt, 24, 2) == 3
            && fmt[26..] == [0x00, 0x00, 0x00, 0x00, 0x10, 0x00, 0x80, 0x00, 0x00, 0xAA, 0x00, 0x38, 0x9B, 0x71]
  {
    var channels, n := |audio.planes|, 8 * (audio.frames * |audio.planes|);
    HeaderParts(rate, audio, n);
    hide Written, Planar.Shaped, FmtBody, Field;
    FmtIsRight(rate, channels, FmtBody(rate, channels));
    FmtTail(rate, channels);
  }

  lemma FmtTail(rate: nat, channels: nat)
    ensures FmtBody(rate, channels)[26..] == GUID_TAIL
  {
    hide Le;
    var head := Le(EXTENSIBLE, 2) + Le(channels, 2) + Le(rate, 4) + Le(rate * (8 * channels), 4) + Le(8 * channels, 2)
                + Le(64, 2) + Le(22, 2) + Le(64, 2) + Le(0, 4) + Le(FLOAT, 2);
    assert FmtBody(rate, channels) == head + GUID_TAIL && |head| == 26;
  }

  lemma FmtIsRight(rate: nat, channels: nat, fmt: Bytes)
    requires rate < U32 && rate * (8 * channels) < U32 && 8 * channels < U16 && fmt == FmtBody(rate, channels)
    ensures && Field(fmt, 0, 2) == 0xFFFE && Field(fmt, 2, 2) == channels && Field(fmt, 4, 4) == rate
            && Field(fmt, 8, 4) == rate * Field(fmt, 12, 2) && Field(fmt, 12, 2) == 8 * channels
            && Field(fmt, 14, 2) == 64 && Field(fmt, 16, 2) == 22 && Field(fmt, 18, 2) == 64
            && Field(fmt, 20, 4) == 0 && Field(fmt, 24, 2) == 3
  {
    FmtFields(rate, channels);
    FmtMiddle(rate, channels);
    Widths();
    hide Le, Pow256, Field, FmtBody;
    FieldIs(fmt, 0, 2, EXTENSIBLE);
    FieldIs(fmt, 2, 2, channels);
    FieldIs(fmt, 4, 4, rate);
    FieldIs(fmt, 8, 4, rate * (8 * channels));
    FieldIs(fmt, 12, 2, 8 * channels);
    FieldIs(fmt, 14, 2, 64);
    FieldIs(fmt, 16, 2, 22);
    FieldIs(fmt, 18, 2, 64);
    FieldIs(fmt, 20, 4, 0);
    FieldIs(fmt, 24, 2, FLOAT);
  }

  /** One part after another. */
  lemma NextPart(file: Bytes, at: nat, part: Bytes, rest: Bytes)
    requires at <= |file| && file[at..] == part + rest
    ensures at + |part| <= |file| && file[at..at + |part|] == part && file[at + |part|..] == rest
  {
  }

  lemma HeaderParts(rate: nat, audio: Planar<Word>, n: nat)
    requires audio.Shaped() && n == 8 * (audio.frames * |audio.planes|)
    ensures var file := Written(rate, audio);
            && |file| == 68 + n
            && file[..4] == RIFF && file[4..8] == Le(n + 60, 4) && file[8..12] == WAVE
            && file[12..16] == FMT && file[16..20] == Le(40, 4) && file[20..60] == FmtBody(rate, |audio.planes|)
            && file[60..64] == DATA && file[64..68] == Le(n, 4)
  {
    var file, fmt, body := Written(rate, audio), FmtBody(rate, |audio.planes|), Body(audio, audio.frames);
    assert file[0..] == file;
    WrittenNests(rate, audio, n);
    hide Written, FmtBody, Body, Le, Planar.Shaped;
    var data := DATA + (Le(n, 4) + body);
    var format := FMT + (Le(40, 4) + (fmt + data));
    NextPart(file, 0, RIFF, Le(n + 60, 4) + (WAVE + format));
    NextPart(file, 4, Le(n + 60, 4), WAVE + format);
    NextPart(file, 8, WAVE, format);
    NextPart(file, 12, FMT, Le(40, 4) + (fmt + data));
    NextPart(file, 16, Le(40, 4), fmt + data);
    NextPart(file, 20, fmt, data);
    NextPart(file, 60, DATA, Le(n, 4) + body);
    NextPart(file, 64, Le(n, 4), body);
    assert |file[68..]| == n;
  }

  lemma WrittenNests(rate: nat, audio: Planar<Word>, n: nat)
    requires audio.Shaped() && n == 8 * (audio.frames * |audio.planes|)
    ensures var fmt, body := FmtBody(rate, |audio.planes|), Body(audio, audio.frames);
            Written(rate, audio) == RIFF + (Le(n + 60, 4) + (WAVE
                                    + (FMT + (Le(40, 4) + (fmt + (DATA + (Le(n, 4) + body)))))))
  {
    var fmt, body := FmtBody(rate, |audio.planes|), Body(audio, audio.frames);
    var size, f, d := Le(n + 60, 4), Chunk(FMT, fmt, 0), Chunk(DATA, body, 0);
    hide FmtBody, Body, Le, Chunk, Planar.Shaped;
    ChunkNests(FMT, fmt);
    ChunkNests(DATA, body);
    assert Written(rate, audio) == RIFF + size + WAVE + f + d;
    Nested(RIFF, size, WAVE, FMT, Le(40, 4), fmt, d);
  }

  lemma Nested(a: Bytes, b: Bytes, c: Bytes, id: Bytes, size: Bytes, body: Bytes, d: Bytes)
    ensures a + b + c + (id + (size + body)) + d == a + (b + (c + (id + (size + (body + d)))))
  {
    var f := id + (size + body);
    Regroup(a + b + c, f, d);
    Regroup(a + b, c, f + d);
    Regroup(a, b, c + (f + d));
    Regroup(id, size + body, d);
    Regroup(size, body, d);
  }

  lemma ChunkNests(id: Bytes, body: Bytes)
    requires |body| % 2 == 0
    ensures Chunk(id, body, 0) == id + (Le(|body|, 4) + body)
  {
    hide Le;
    Regroup(id, Le(|body|, 4), body);
  }

  lemma FmtMiddle(rate: nat, channels: nat)
    ensures var b := FmtBody(rate, channels);
            && b[8..12] == Le(rate * (8 * channels), 4) && b[12..14] == Le(8 * channels, 2)
            && b[16..18] == Le(22, 2) && b[18..20] == Le(64, 2) && b[20..24] == Le(0, 4)
  {
    hide Le;
    var head := Le(EXTENSIBLE, 2) + Le(channels, 2) + Le(rate, 4);
    var mid := Le(rate * (8 * channels), 4) + Le(8 * channels, 2) + Le(64, 2);
    var last := Le(22, 2) + Le(64, 2) + Le(0, 4) + Le(FLOAT, 2) + GUID_TAIL;
    assert FmtBody(rate, channels) == head + mid + last;
    assert mid[0..4] == Le(rate * (8 * channels), 4) && mid[4..6] == Le(8 * channels, 2);
    assert last[0..2] == Le(22, 2) && last[2..4] == Le(64, 2) && last[4..8] == Le(0, 4);
  }
}
