/**
The lines of text in batches of at most a chunk. Chunked or not, the units are the split of
the whole content on newline.
*/
module Lines {
  import opened Options
  import opened Segments
  import opened Units

  const NEWLINE: nat := 10

  function LineKey(line: Content): Key {
    if |line| <= 0x4_0000 then Text(line) else Hashed(line)
  }

  function Keyed(lines: seq<Content>): (k: seq<Key>)
    ensures |k| == |lines| && forall i :: 0 <= i < |k| ==> k[i] == LineKey(lines[i])
  {
    seq(|lines|, i requires 0 <= i < |lines| => LineKey(lines[i]))
  }

  /** The keys of the lines of the whole content, read at once: a line's text, or the hash
      of one longer than a chunk. */
  function LineKeys(data: Content): (k: seq<Key>)
    ensures |k| == |Split(data, NEWLINE)|
    ensures forall i :: 0 <= i < |k| ==> k[i] == LineKey(Split(data, NEWLINE)[i])
  {
    Keyed(Split(data, NEWLINE))
  }

  lemma KeyedJoins(a: seq<Content>, b: seq<Content>)
    ensures Keyed(a + b) == Keyed(a) + Keyed(b)
  {
  }

  /** A piece of at most a chunk is keyed by its lines' texts. */
  lemma ShortPiece(piece: Content)
    requires |piece| <= CHUNK
    ensures LineKeys(piece) == AsText(Split(piece, NEWLINE))
  {
    SplitShort(piece, NEWLINE);
    hide Split;
  }

  lemma LineKeysAt(a: Content, b: Content)
    ensures LineKeys(a + [NEWLINE] + b) == LineKeys(a) + LineKeys(b)
  {
    hide Split;
    SplitAt(a, b, NEWLINE);
    KeyedJoins(Split(a, NEWLINE), Split(b, NEWLINE));
  }

  lemma LongLine(line: Content)
    requires |line| > CHUNK && NEWLINE !in line
    ensures LineKeys(line) == [Hashed(line)]
  {
    SplitNone(line, NEWLINE);
    hide Split;
  }

  /** The rest from `start`, cut at the newline at `cut`. */
  lemma CutAt(data: Content, start: nat, cut: nat, done: seq<Key>)
    requires start <= cut < |data| && data[cut] == NEWLINE
    ensures done + LineKeys(data[start..]) == done + LineKeys(data[start..cut]) + LineKeys(data[cut + 1..])
  {
    hide LineKeys;
    assert data[start..] == data[start..cut] + [NEWLINE] + data[cut + 1..];
    LineKeysAt(data[start..cut], data[cut + 1..]);
  }

  lemma StepIsLarge(overlap: nat)
    ensures Step(overlap) >= CHUNK
  {
  }

  /** Whatever the chunks and the overlap, the batches list the lines of the whole content,
      each under its number. */
  method LineBatches(data: Content, bytes: bool, first: nat, overlap: nat) returns (out: seq<Batch>, next: nat)
    requires bytes ==> overlap >= 3
    ensures Numbered(out, first, LineKeys(data)) && next == first + |Split(data, NEWLINE)|
    ensures Bounded(out, Step(overlap) + 2 * overlap + 3) && Shown(out, bytes, false, Longest(bytes, overlap))
  {
    hide Shown, Numbered, Split, LineKeys, All, Bounded, LastOf, FirstOf, Count, Step, AsText;
    var start, size := 0, |data|;
    out, next := [], first;
    ghost var done: seq<Key> := [];
    assert Step(overlap) >= CHUNK by { StepIsLarge(overlap); }
    ghost var most := Step(overlap) + 2 * overlap + 3;
    ghost var longest := Longest(bytes, overlap);
    NothingNumbered(first, most);
    PlainShown(Batch([], NEWLINE, first, false, None), bytes, longest);
    assert data[0..] == data;
    while true
      invariant 0 <= start <= size
      invariant Numbered(out, first, done) && next == first + |done|
      invariant Bounded(out, most) && Shown(out, bytes, false, longest)
      invariant done + LineKeys(data[start..]) == LineKeys(data)
      decreases size - start
    {
      var cut := if size - start <= CHUNK then size else LastOf(data, NEWLINE, start, start + CHUNK + 1);
      if cut >= 0 {
        var piece := data[start..cut];
        ShortPiece(piece);
        AddPlain(out, first, done, most, piece, NEWLINE, false);
        PlainShown(Batch(piece, NEWLINE, next, false, None), bytes, longest);
        ShownJoins(out, [Batch(piece, NEWLINE, next, false, None)], bytes, false, longest);
        out := out + [Batch(piece, NEWLINE, next, false, None)];
        SplitCount(piece, NEWLINE);
        next := next + Count(piece, NEWLINE) + 1;
        if cut == size {
          assert data[start..] == piece;
          return;
        }
        CutAt(data, start, cut, done);
        done := done + LineKeys(piece);
        start := cut + 1;
      } else {
        var end := FirstOf(data, NEWLINE, start + CHUNK);
        ghost var line := data[start..end];
        LongLine(line);
        var segments := LongUnitBatches(data, bytes, start, end, NEWLINE, next, false, overlap);
        AddBatches(out, first, done, most, segments, [Hashed(line)]);
        ShownJoins(out, segments, bytes, false, longest);
        out := out + segments;
        next := next + 1;
        if end == size {
          assert data[start..] == line;
          return;
        }
        CutAt(data, start, end, done);
        done := done + [Hashed(line)];
        start := end + 1;
      }
    }
  }
}
