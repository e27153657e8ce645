/**
The numbered units of a blob and the batches they are scanned in: each batch holds whole
units between separators, or one segment of a unit too long for that, keyed by the whole.
*/
module Units {
  import opened Options
  import opened Segments

  /** A unit's key: its text, or the hash of a long one (named by what is hashed). */
  datatype Key = Text(text: Content) | Hashed(unit: Content)

  /** The units between separators: one more than there are separators. */
  function Split(s: Content, sep: nat): (r: seq<Content>)
    ensures |r| >= 1
  {
    if s == [] then [[]]
    else if s[0] == sep then [[]] + Split(s[1..], sep)
    else
      var rest := Split(s[1..], sep);
      [[s[0]] + rest[0]] + rest[1..]
  }

  function Join(units: seq<Content>, sep: nat): Content
    requires units != []
  {
    if |units| == 1 then units[0] else units[0] + [sep] + Join(units[1..], sep)
  }

  function Count(s: Content, c: nat): nat {
    if s == [] then 0 else (if s[0] == c then 1 else 0) + Count(s[1..], c)
  }

  lemma {:induction false} SplitCount(s: Content, sep: nat)
    ensures |Split(s, sep)| == Count(s, sep) + 1
  {
    if s != [] {
      SplitCount(s[1..], sep);
    }
  }

  lemma {:induction false} SplitNone(s: Content, sep: nat)
    requires sep !in s
    ensures Split(s, sep) == [s]
  {
    if s != [] {
      assert sep !in s[1..] && s[0] != sep;
      assert s == [s[0]] + s[1..];
      SplitNone(s[1..], sep);
    }
  }

  /** Cut at any one separator, both sides split on their own. */
  lemma {:induction false} SplitAt(a: Content, b: Content, sep: nat)
    ensures Split(a + [sep] + b, sep) == Split(a, sep) + Split(b, sep)
  {
    var s := a + [sep] + b;
    if a == [] {
      assert s[1..] == b;
    } else {
      assert s[1..] == a[1..] + [sep] + b;
      SplitAt(a[1..], b, sep);
    }
  }

  lemma {:induction false} SplitShort(s: Content, sep: nat)
    ensures forall i :: 0 <= i < |Split(s, sep)| ==> |Split(s, sep)[i]| <= |s| && sep !in Split(s, sep)[i]
  {
    if s != [] {
      SplitShort(s[1..], sep);
    }
  }

  lemma {:induction false} SplitJoin(units: seq<Content>, sep: nat)
    requires units != [] && forall i :: 0 <= i < |units| ==> sep !in units[i]
    ensures Split(Join(units, sep), sep) == units
  {
    SplitNone(units[0], sep);
    if |units| > 1 {
      SplitJoin(units[1..], sep);
      SplitAt(units[0], Join(units[1..], sep), sep);
    }
  }

  /** The last `c` of `data[lo..hi]`, or -1. */
  function LastOf(data: Content, c: nat, lo: nat, hi: nat): (i: int)
    requires lo <= hi <= |data|
    ensures i == -1 || (lo <= i < hi && data[i] == c)
    ensures forall j :: Max(i + 1, lo) <= j < hi ==> data[j] != c
  {
    if lo == hi then -1 else if data[hi - 1] == c then hi - 1 else LastOf(data, c, lo, hi - 1)
  }

  /** The first `c` of `data[lo..]`, or its length. */
  function FirstOf(data: Content, c: nat, lo: nat): (i: nat)
    requires lo <= |data|
    ensures lo <= i <= |data| && (i < |data| ==> data[i] == c)
    ensures forall j :: lo <= j < i ==> data[j] != c
    decreases |data| - lo
  {
    if lo == |data| || data[lo] == c then lo else FirstOf(data, c, lo + 1)
  }

  // ----- batches

  datatype Batch = Batch(source: Content, sep: nat, first: nat, run: bool, key: Option<Key>) {
    function Texts(): seq<Content> {
      Split(source, sep)
    }

    function Keys(): (k: seq<Key>)
      ensures |k| >= 1
    {
      if key.Some? then [key.value] else AsText(Texts())
    }
  }

  function AsText(texts: seq<Content>): (k: seq<Key>)
    ensures |k| == |texts| && forall i :: 0 <= i < |k| ==> k[i] == Text(texts[i])
  {
    seq(|texts|, i requires 0 <= i < |texts| => Text(texts[i]))
  }

  /** The batch lists its units' keys where the numbering has them. */
  ghost predicate Lists(b: Batch, first: nat, keys: seq<Key>) {
    && first <= b.first && b.first - first + |b.Keys()| <= |keys|
    && forall j :: 0 <= j < |b.Keys()| ==> b.Keys()[j] == keys[b.first - first + j]
  }

  /** A batch goes on where the one before ended, or is a segment of the same unit. */
  ghost predicate Follows(a: Batch, b: Batch) {
    b.first == a.first + |a.Keys()| || (b.first == a.first && a.key.Some? && b.key == a.key)
  }

  /** The batches number the units of `keys` consecutively from `first`, every one. */
  ghost predicate Numbered(out: seq<Batch>, first: nat, keys: seq<Key>) {
    && (out == [] ==> keys == [])
    && (out != [] ==> out[0].first == first && out[|out| - 1].first + |out[|out| - 1].Keys()| == first + |keys|)
    && (forall i :: 0 <= i < |out| ==> Lists(out[i], first, keys))
    && (forall i, j :: 0 <= i < |out| - 1 && j == i + 1 ==> Follows(out[i], out[j]))
  }

  lemma ListsLater(b: Batch, first: nat, before: seq<Key>, keys: seq<Key>, after: seq<Key>)
    requires Lists(b, first + |before|, keys)
    ensures Lists(b, first, before + keys + after)
  {
    hide Batch.Keys;
    var all := before + keys + after;
    forall j | 0 <= j < |b.Keys()| ensures b.Keys()[j] == all[b.first - first + j] {
      assert b.Keys()[j] == keys[b.first - (first + |before|) + j];
    }
  }

  /** Numbering goes on from one part of the content to the next. */
  lemma NumberedJoins(a: seq<Batch>, b: seq<Batch>, first: nat, x: seq<Key>, y: seq<Key>)
    requires Numbered(a, first, x) && Numbered(b, first + |x|, y)
    ensures Numbered(a + b, first, x + y)
  {
    hide Batch.Keys, Lists, Follows;
    var out := a + b;
    assert [] + x + y == x + y && x + y + [] == x + y;
    forall i | 0 <= i < |out| ensures Lists(out[i], first, x + y) {
      if i < |a| {
        assert Lists(a[i], first, x);
        ListsLater(a[i], first, [], x, y);
      } else {
        assert out[i] == b[i - |a|];
        ListsLater(b[i - |a|], first, x, y, []);
      }
    }
    forall i, j | 0 <= i < |out| - 1 && j == i + 1 ensures Follows(out[i], out[j]) {
      if j < |a| {
        assert Follows(a[i], a[j]);
      } else if i >= |a| {
        assert Follows(b[i - |a|], b[j - |a|]);
      } else {
        GoesOn(a[i], b[0]);
      }
    }
  }

  lemma GoesOn(a: Batch, b: Batch)
    requires b.first == a.first + |a.Keys()|
    ensures Follows(a, b)
  {
  }

  lemma PlainNumbered(source: Content, sep: nat, first: nat, run: bool)
    ensures Numbered([Batch(source, sep, first, run, None)], first, AsText(Split(source, sep)))
  {
    hide *;
    var b := Batch(source, sep, first, run, None);
    PlainKeys(b);
    AloneNumbered(b);
  }

  lemma AloneNumbered(b: Batch)
    ensures Numbered([b], b.first, b.Keys())
  {
    hide Batch.Keys, Follows;
    var out := [b];
    ListsItself(b);
    hide Lists;
    assert out[0] == b && |out| == 1;
  }

  lemma ListsItself(b: Batch)
    ensures Lists(b, b.first, b.Keys())
  {
    hide Batch.Keys;
  }

  lemma PlainKeys(b: Batch)
    requires b.key.None?
    ensures b.Keys() == AsText(Split(b.source, b.sep))
  {
  }

  /** No batch holds more than `most` characters. */
  ghost predicate Bounded(out: seq<Batch>, most: nat) {
    forall i :: 0 <= i < |out| ==> |out[i].source| <= most
  }

  /** One more batch of whole units, or more batches of any kind. */
  lemma AddPlain(out: seq<Batch>, first: nat, done: seq<Key>, most: nat, source: Content, sep: nat, run: bool)
    requires Numbered(out, first, done) && Bounded(out, most) && |source| <= most
    ensures var b := Batch(source, sep, first + |done|, run, None);
            Numbered(out + [b], first, done + AsText(Split(source, sep))) && Bounded(out + [b], most)
  {
    hide Split, Numbered;
    PlainNumbered(source, sep, first + |done|, run);
    NumberedJoins(out, [Batch(source, sep, first + |done|, run, None)], first, done, AsText(Split(source, sep)));
  }

  lemma AddBatches(out: seq<Batch>, first: nat, done: seq<Key>, most: nat, more: seq<Batch>, keys: seq<Key>)
    requires Numbered(out, first, done) && Bounded(out, most)
    requires Numbered(more, first + |done|, keys) && Bounded(more, most)
    ensures Numbered(out + more, first, done + keys) && Bounded(out + more, most)
  {
    hide Numbered;
    NumberedJoins(out, more, first, done, keys);
  }

  lemma NothingNumbered(first: nat, most: nat)
    ensures Numbered([], first, []) && Bounded([], most)
  {
  }

  lemma LessBounded(out: seq<Batch>, least: nat, most: nat)
    requires Bounded(out, least) && least <= most
    ensures Bounded(out, most)
  {
  }

  // ----- what of a long unit is seen

  /** A segment's place in its unit; its edges split no character of bytes. */
  ghost predicate Lies(b: Batch, unit: Content, lo: nat, bytes: bool) {
    var hi := lo + |b.source|;
    hi <= |unit| && b.source == unit[lo..hi] && (bytes ==> Aligned(unit, lo) && Aligned(unit, hi))
  }

  ghost predicate Holds(b: Batch, unit: Content, p: nat, w: nat, bytes: bool) {
    exists lo: nat :: Lies(b, unit, lo, bytes) && lo <= p && p + w <= lo + |b.source|
  }

  /** A segment of the same unit holds the stretch whole. */
  ghost predicate Found(out: seq<Batch>, b: Batch, unit: Content, p: nat, w: nat, bytes: bool) {
    exists j :: 0 <= j < |out| && out[j].first == b.first && out[j].key == b.key && Holds(out[j], unit, p, w, bytes)
  }

  /** The longest stretch that no edge can split. */
  function Longest(bytes: bool, overlap: nat): int {
    if bytes then overlap - 2 else overlap + 1
  }

  /** Of a batch that is a segment of a unit: it is a stretch of that unit, and of the whole
      unit every stretch of up to that length lies whole in one of its segments. */
  ghost predicate SeenWhole(out: seq<Batch>, b: Batch, bytes: bool, most: int)
    requires b.key.Some?
  {
    && b.key.value.Hashed?
    && (exists lo: nat :: Lies(b, b.key.value.unit, lo, bytes))
    && forall p: nat, w: nat :: p + w <= |b.key.value.unit| && w <= most ==>
         Found(out, b, b.key.value.unit, p, w, bytes)
  }

  /** Nothing short of a long unit is lost, and the batches say whether their units are runs. */
  ghost predicate Shown(out: seq<Batch>, bytes: bool, run: bool, most: int) {
    forall i :: 0 <= i < |out| ==> out[i].run == run && (out[i].key.Some? ==> SeenWhole(out, out[i], bytes, most))
  }

  lemma FoundStays(out: seq<Batch>, before: seq<Batch>, after: seq<Batch>, b: Batch, unit: Content, p: nat, w: nat,
                   bytes: bool)
    requires Found(out, b, unit, p, w, bytes)
    ensures Found(before + out + after, b, unit, p, w, bytes)
  {
    hide Holds;
    var all := before + out + after;
    var j :| 0 <= j < |out| && out[j].first == b.first && out[j].key == b.key && Holds(out[j], unit, p, w, bytes);
    assert all[|before| + j] == out[j];
  }

  lemma SeenStays(out: seq<Batch>, before: seq<Batch>, after: seq<Batch>, b: Batch, bytes: bool, most: int)
    requires b.key.Some? && SeenWhole(out, b, bytes, most)
    ensures SeenWhole(before + out + after, b, bytes, most)
  {
    hide Found, Lies;
    var unit := b.key.value.unit;
    forall p: nat, w: nat | p + w <= |unit| && w <= most ensures Found(before + out + after, b, unit, p, w, bytes) {
      FoundStays(out, before, after, b, unit, p, w, bytes);
    }
  }

  lemma ShownJoins(a: seq<Batch>, b: seq<Batch>, bytes: bool, run: bool, most: int)
    requires Shown(a, bytes, run, most) && Shown(b, bytes, run, most)
    ensures Shown(a + b, bytes, run, most)
  {
    hide SeenWhole;
    var all := a + b;
    assert [] + a + b == all && a + b + [] == all;
    forall i | 0 <= i < |all| ensures all[i].run == run && (all[i].key.Some? ==> SeenWhole(all, all[i], bytes, most)) {
      if all[i].key.Some? {
        if i < |a| {
          SeenStays(a, [], b, a[i], bytes, most);
        } else {
          SeenStays(b, a, [], b[i - |a|], bytes, most);
        }
      }
    }
  }

  /** Nothing short of a long unit is lost, whatever kind it is. */
  ghost predicate AllSeen(out: seq<Batch>, most: int) {
    forall i :: 0 <= i < |out| && out[i].key.Some? ==> SeenWhole(out, out[i], false, most)
  }

  lemma ShownIsSeen(out: seq<Batch>, bytes: bool, run: bool, most: int, less: int)
    requires Shown(out, bytes, run, most) && less <= most
    ensures AllSeen(out, less)
  {
    forall i | 0 <= i < |out| && out[i].key.Some? ensures SeenWhole(out, out[i], false, less) {
      SeenLess(out, out[i], bytes, most, less);
    }
  }

  lemma SeenLess(out: seq<Batch>, b: Batch, bytes: bool, most: int, less: int)
    requires b.key.Some? && SeenWhole(out, b, bytes, most) && less <= most
    ensures SeenWhole(out, b, false, less)
  {
    var unit := b.key.value.unit;
    var lo: nat :| Lies(b, unit, lo, bytes);
    assert Lies(b, unit, lo, false);
    forall p: nat, w: nat | p + w <= |unit| && w <= less ensures Found(out, b, unit, p, w, false) {
      assert Found(out, b, unit, p, w, bytes);
      var j :| 0 <= j < |out| && out[j].first == b.first && out[j].key == b.key && Holds(out[j], unit, p, w, bytes);
      var at: nat :| Lies(out[j], unit, at, bytes) && at <= p && p + w <= at + |out[j].source|;
      assert Lies(out[j], unit, at, false);
      assert Holds(out[j], unit, p, w, false);
    }
  }

  lemma SeenJoins(a: seq<Batch>, b: seq<Batch>, most: int)
    requires AllSeen(a, most) && AllSeen(b, most)
    ensures AllSeen(a + b, most)
  {
    hide SeenWhole;
    var all := a + b;
    assert [] + a + b == all && a + b + [] == all;
    forall i | 0 <= i < |all| && all[i].key.Some? ensures SeenWhole(all, all[i], false, most) {
      if i < |a| {
        SeenStays(a, [], b, a[i], false, most);
      } else {
        SeenStays(b, a, [], b[i - |a|], false, most);
      }
    }
  }

  /** The batches of units after the first `n` are runs, and no others. */
  ghost predicate Labelled(out: seq<Batch>, n: nat) {
    forall i :: 0 <= i < |out| ==> (out[i].run <==> out[i].first > n)
  }

  lemma ShownIsLabelled(out: seq<Batch>, bytes: bool, run: bool, most: int, first: nat, keys: seq<Key>, n: nat)
    requires Shown(out, bytes, run, most) && Numbered(out, first, keys)
    requires if run then n < first else first + |keys| <= n + 1
    ensures Labelled(out, n)
  {
    hide Batch.Keys, SeenWhole;
    forall i | 0 <= i < |out| ensures out[i].run <==> out[i].first > n {
      assert Lists(out[i], first, keys);
    }
  }

  lemma PlainShown(b: Batch, bytes: bool, most: int)
    requires b.key.None?
    ensures Shown([b], bytes, b.run, most) && Shown([], bytes, b.run, most)
  {
  }

  /** The segments of a unit show all of it. */
  lemma SegmentsShow(data: Content, bytes: bool, start: nat, end: nat, sep: nat, first: nat, run: bool, overlap: nat,
                     out: seq<Batch>)
    requires Ends(data, bytes, start, end) && start < end && (bytes ==> overlap >= 3)
    requires var s := All(data, bytes, start, end, overlap);
             && (forall i :: 0 <= i < |s| ==> s[i].lo <= s[i].hi <= |data|)
             && out == SegmentBatches(data, s, sep, first, run, Hashed(data[start..end]))
    ensures Shown(out, bytes, run, Longest(bytes, overlap))
  {
    var s, unit := All(data, bytes, start, end, overlap), data[start..end];
    SegmentsChain(data, bytes, start, end, overlap);
    if bytes {
      AllIsAligned(data, start, end, overlap);
    }
    hide All, Chained, AllAligned, Lies, Shown, Segments.Whole;
    forall i | 0 <= i < |s| ensures start <= s[i].lo && Lies(out[i], unit, s[i].lo - start, bytes) {
      SegmentLies(data, bytes, start, end, overlap, s, i, out[i]);
    }
    forall q: nat, w: nat | start <= q && q + w <= end && w <= Longest(bytes, overlap) ensures Segments.Whole(s, q, w) {
      NoShortStretchIsSplit(data, bytes, start, end, overlap, q, w);
    }
    SegmentsHold(s, out, unit, start, bytes, run, Longest(bytes, overlap));
  }

  lemma SegmentsHold(s: seq<Segment>, out: seq<Batch>, unit: Content, start: nat, bytes: bool, run: bool, most: int)
    requires s != [] && |out| == |s| && out[0].key == Some(Hashed(unit))
    requires forall i :: 0 <= i < |out| ==>
               out[i].run == run && out[i].key == out[0].key && out[i].first == out[0].first
    requires forall i :: 0 <= i < |s| ==> s[i].lo <= s[i].hi && |out[i].source| == s[i].hi - s[i].lo
    requires forall i :: 0 <= i < |s| ==> start <= s[i].lo && Lies(out[i], unit, s[i].lo - start, bytes)
    requires forall q: nat, w: nat :: start <= q && q + w <= start + |unit| && w <= most ==> Segments.Whole(s, q, w)
    ensures Shown(out, bytes, run, most)
  {
    hide Lies, Found, Shown;
    forall p: nat, w: nat | p + w <= |unit| && w <= most ensures Found(out, out[0], unit, p, w, bytes) {
      var q := start + p;
      assert Segments.Whole(s, q, w);
      var j :| 0 <= j < |s| && s[j].lo <= q && q + w <= s[j].hi;
      FoundIn(out, unit, p, w, bytes, j, s[j].lo - start);
    }
    var places: seq<nat> := seq(|s|, i requires 0 <= i < |s| => if start <= s[i].lo then s[i].lo - start else 0);
    OneUnitShown(out, unit, places, bytes, run, most);
  }

  lemma FoundIn(out: seq<Batch>, unit: Content, p: nat, w: nat, bytes: bool, j: nat, lo: nat)
    requires j < |out| && out[j].first == out[0].first && out[j].key == out[0].key
    requires Lies(out[j], unit, lo, bytes) && lo <= p && p + w <= lo + |out[j].source|
    ensures Found(out, out[0], unit, p, w, bytes)
  {
    hide Lies;
    assert Holds(out[j], unit, p, w, bytes);
  }

  lemma OneUnitShown(out: seq<Batch>, unit: Content, places: seq<nat>, bytes: bool, run: bool, most: int)
    requires out != [] && out[0].key == Some(Hashed(unit))
    requires forall i :: 0 <= i < |out| ==>
               out[i].run == run && out[i].key == out[0].key && out[i].first == out[0].first
    requires |places| == |out| && forall i :: 0 <= i < |out| ==> Lies(out[i], unit, places[i], bytes)
    requires forall p: nat, w: nat :: p + w <= |unit| && w <= most ==> Found(out, out[0], unit, p, w, bytes)
    ensures Shown(out, bytes, run, most)
  {
    hide Lies, Holds;
    forall i | 0 <= i < |out| ensures SeenWhole(out, out[i], bytes, most) {
      assert Lies(out[i], unit, places[i], bytes);
      forall p: nat, w: nat | p + w <= |unit| && w <= most ensures Found(out, out[i], unit, p, w, bytes) {
        assert Found(out, out[0], unit, p, w, bytes);
      }
    }
  }

  lemma SegmentLies(data: Content, bytes: bool, start: nat, end: nat, overlap: nat, s: seq<Segment>, i: nat, b: Batch)
    requires start <= end <= |data| && i < |s| && s[0].lo == start && s[|s| - 1].hi == end
    requires Chained(data, bytes, overlap, s) && (bytes ==> AllAligned(data[start..end], start, s))
    requires s[i].lo <= s[i].hi <= |data| && b.source == data[s[i].lo..s[i].hi]
    ensures start <= s[i].lo && Lies(b, data[start..end], s[i].lo - start, bytes)
  {
    hide Aligned, Joined, Step;
    assert i > 0 ==> s[0].lo <= s[i].lo;
    assert i < |s| - 1 ==> s[i].hi < s[|s| - 1].hi;
    assert data[start..end][s[i].lo - start..s[i].hi - start] == data[s[i].lo..s[i].hi];
  }

  // ----- one long unit

  /** One batch for each segment, all with the unit's number and key. */
  function SegmentBatches(data: Content, segments: seq<Segment>, sep: nat, first: nat, run: bool,
                          key: Key): (out: seq<Batch>)
    requires forall i :: 0 <= i < |segments| ==> segments[i].lo <= segments[i].hi <= |data|
    ensures |out| == |segments|
  {
    seq(|segments|, i requires 0 <= i < |segments| =>
          Batch(data[segments[i].lo..segments[i].hi], sep, first, run, Some(key)))
  }

  lemma LongNumbered(data: Content, segments: seq<Segment>, sep: nat, first: nat, run: bool, key: Key)
    requires forall i :: 0 <= i < |segments| ==> segments[i].lo <= segments[i].hi <= |data|
    requires segments != []
    ensures Numbered(SegmentBatches(data, segments, sep, first, run, key), first, [key])
  {
    var out := SegmentBatches(data, segments, sep, first, run, key);
    assert forall i :: 0 <= i < |out| ==> out[i].key == Some(key) && out[i].first == first;
    SameUnit(out, first, key);
  }

  lemma SameUnit(out: seq<Batch>, first: nat, key: Key)
    requires out != [] && forall i :: 0 <= i < |out| ==> out[i].key == Some(key) && out[i].first == first
    ensures Numbered(out, first, [key])
  {
    hide Split, AsText;
  }

  lemma SegmentsFit(data: Content, bytes: bool, start: nat, end: nat, overlap: nat)
    requires Ends(data, bytes, start, end) && start < end && (bytes ==> overlap >= 3)
    ensures var s := All(data, bytes, start, end, overlap);
            s != [] && forall i :: 0 <= i < |s| ==>
                         s[i].lo <= s[i].hi <= |data| && s[i].hi - s[i].lo <= Step(overlap) + 2 * overlap + 3
  {
    SegmentsChain(data, bytes, start, end, overlap);
  }

  /** The batches of unit `first`, `data[start..end]`, longer than a chunk. */
  method LongUnitBatches(data: Content, bytes: bool, start: nat, end: nat, sep: nat, first: nat, run: bool,
                         overlap: nat)
      returns (out: seq<Batch>)
    requires Ends(data, bytes, start, end) && start < end && (bytes ==> overlap >= 3)
    ensures Numbered(out, first, [Hashed(data[start..end])])
    ensures var s := All(data, bytes, start, end, overlap);
            |out| == |s| && forall i :: 0 <= i < |s| ==>
                s[i].lo <= s[i].hi <= |data| && out[i].source == data[s[i].lo..s[i].hi]
    ensures Bounded(out, Step(overlap) + 2 * overlap + 3) && Shown(out, bytes, run, Longest(bytes, overlap))
  {
    hide All, Numbered, Shown;
    var segments := LongUnit(data, bytes, start, end, overlap);
    SegmentsFit(data, bytes, start, end, overlap);
    var key := Hashed(data[start..end]);
    out := SegmentBatches(data, segments, sep, first, run, key);
    LongNumbered(data, segments, sep, first, run, key);
    SegmentsShow(data, bytes, start, end, sep, first, run, overlap, out);
  }

  // ----- the key of a numbered unit

  /** The key of unit `number`: that of the first batch that reaches it; none where the
      content has no such unit. */
  method KeyOf(out: seq<Batch>, first: nat, ghost keys: seq<Key>, number: nat) returns (key: Option<Key>)
    requires Numbered(out, first, keys)
    ensures key == if first <= number < first + |keys| then Some(keys[number - first]) else None
  {
    hide Batch.Keys;
    if number < first {
      return None;
    }
    var i := 0;
    while i < |out|
      invariant 0 <= i <= |out|
      invariant forall j :: 0 <= j < i ==> number >= out[j].first + |out[j].Keys()|
    {
      if number < out[i].first + |out[i].Keys()| {
        assert Lists(out[i], first, keys);
        assert i > 0 ==> Follows(out[i - 1], out[i]);
        return Some(out[i].Keys()[number - out[i].first]);
      }
      i := i + 1;
    }
    return None;
  }
}
