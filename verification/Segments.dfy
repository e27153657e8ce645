/**
The segments of a unit too long to scan at once: overlapping stretches whose edges sit
after a separator where the content has one, else never inside a UTF-8 character of bytes.
Text is a sequence of character codes; `bytes` tells bytes from decoded text.
*/
module Segments {
  import opened Seqs

  type Content = seq<nat>

  const CHUNK: nat := 262144

  predicate IsCut(c: nat) {
    c == 32 || c == 9 || c == 44 || c == 59
  }

  predicate Continues(c: nat) {
    0x80 <= c < 0xC0
  }

  /** The separators an edge goes after, by their characters; and the bytes that continue one. */
  lemma EdgeBytes(c: nat)
    ensures IsCut(c) <==> c in [' ' as int, '\t' as int, ',' as int, ';' as int]
    ensures c < 256 ==> (Continues(c) <==> c / 64 == 2)
  {
  }

  function Later(a: nat, b: nat): nat {
    if a >= b then a else b
  }

  function Max(a: int, b: int): int {
    if a >= b then a else b
  }

  /** The last separator of `data[low..at]`, or -1. */
  function LastCut(data: Content, low: nat, at: nat): (i: int)
    requires low <= at <= |data|
    ensures i == -1 || (low <= i < at && IsCut(data[i]))
    ensures forall j :: Max(i + 1, low) <= j < at ==> !IsCut(data[j])
  {
    if low == at then -1 else if IsCut(data[at - 1]) then at - 1 else LastCut(data, low, at - 1)
  }

  /** `at`, moved past at most `left` continuation bytes. */
  function Past(data: Content, at: nat, left: nat): (e: nat)
    requires at <= |data|
    ensures at <= e <= |data| && e <= at + left
    ensures forall j :: at <= j < e ==> Continues(data[j])
    ensures e == at + left || e == |data| || !Continues(data[e])
    decreases left
  {
    if left == 0 || at == |data| || !Continues(data[at]) then at else Past(data, at + 1, left - 1)
  }

  function Edge(data: Content, bytes: bool, low: nat, at: nat): (e: nat)
    requires low <= at <= |data|
    ensures low <= e <= |data|
  {
    var found := LastCut(data, low, at);
    if found >= 0 then found + 1 else if bytes then Past(data, at, 3) else at
  }

  datatype Segment = Segment(lo: nat, hi: nat)

  function Step(overlap: nat): nat {
    if CHUNK >= 6 * overlap then CHUNK else 6 * overlap
  }

  /** What every caller gives: a unit longer than a chunk, ended by a byte that is no
      continuation, or by the content's end. */
  predicate Ends(data: Content, bytes: bool, start: nat, end: nat) {
    start <= end <= |data| && (bytes && end < |data| ==> !Continues(data[end]))
  }

  /** Where a step from `at` ends. */
  function StepEnd(data: Content, bytes: bool, end: nat, overlap: nat, at: nat): (e: nat)
    requires Ends(data, bytes, at, end) && at < end
    ensures at < e <= end && e <= at + Step(overlap) + 3 && (!bytes ==> e <= at + Step(overlap))
    ensures e == end || e > at + Step(overlap) / 2
  {
    if end - at <= Step(overlap) then end
    else
      var e := Edge(data, bytes, at + Step(overlap) / 2, at + Step(overlap));
      PastStops(data, at + Step(overlap), 3, end);
      e
  }

  lemma {:induction false} PastStops(data: Content, at: nat, left: nat, end: nat)
    requires at <= end <= |data|
    ensures end == |data| || !Continues(data[end]) ==> Past(data, at, left) <= end
  {
    var e := Past(data, at, left);
    if end < e && end < |data| {
      assert Continues(data[end]);
    }
  }

  /** Where the segment after a step that ended at `e` starts. */
  function NextLow(data: Content, bytes: bool, start: nat, overlap: nat, e: nat): (lo: nat)
    requires 2 * overlap <= e <= |data| && start <= |data|
    ensures lo <= |data|
  {
    Later(start, Edge(data, bytes, e - 2 * overlap, e - overlap))
  }

  /** The segments of `data[start..end]` from the step at `at` on, the first from `lo`. */
  function From(data: Content, bytes: bool, start: nat, end: nat, overlap: nat, lo: nat, at: nat): seq<Segment>
    requires Ends(data, bytes, start, end) && start <= at <= end
    decreases end - at
  {
    if at == end then []
    else
      var e := StepEnd(data, bytes, end, overlap, at);
      [Segment(lo, e)]
      + if e == end then [] else From(data, bytes, start, end, overlap, NextLow(data, bytes, start, overlap, e), e)
  }

  function All(data: Content, bytes: bool, start: nat, end: nat, overlap: nat): seq<Segment>
    requires Ends(data, bytes, start, end)
  {
    From(data, bytes, start, end, overlap, start, start)
  }

  // ----- edges

  /** The next segment starts in the last two overlaps of the step; past its last overlap
      only over continuation bytes, at most three. */
  lemma NextLowIs(data: Content, bytes: bool, start: nat, end: nat, overlap: nat, at: nat)
    requires Ends(data, bytes, start, end) && start <= at < end
    requires StepEnd(data, bytes, end, overlap, at) != end
    ensures var e := StepEnd(data, bytes, end, overlap, at);
            var lo := NextLow(data, bytes, start, overlap, e);
            && e >= at + 3 * overlap + 1 && start <= at < e - 3 * overlap <= lo
               && e - 2 * overlap <= lo <= e - overlap + 3
            && (!bytes ==> lo <= e - overlap)
            && (bytes ==> forall p :: e - overlap <= p < lo ==> Continues(data[p]))
  {
    var e := StepEnd(data, bytes, end, overlap, at);
    assert Step(overlap) / 2 >= 3 * overlap;
  }

  // ----- the whole unit

  ghost predicate Ordered(s: seq<Segment>) {
    forall i, j :: 0 <= i < j < |s| ==> s[i].hi < s[j].hi && s[i].lo <= s[j].lo
  }

  /** Each step's segment follows the one before it, and none is longer than a step, two
      overlaps and the three bytes an edge may move. */
  ghost predicate Chained(data: Content, bytes: bool, overlap: nat, segments: seq<Segment>) {
    && (forall i :: 0 <= i < |segments| ==> segments[i].lo < segments[i].hi <= |data|)
    && Ordered(segments)
    && (forall i, j :: 0 <= i < |segments| - 1 && j == i + 1 ==>
       Joined(data, bytes, overlap, segments[i].hi, segments[j].lo))
    && (forall i :: 0 <= i < |segments| ==>
          segments[i].hi - segments[i].lo <= Step(overlap) + 2 * overlap + if bytes then 3 else 0)
  }

  /** A segment may start at `lo` after one that ends at `e`: at least `overlap` back, but
      for continuation bytes. */
  ghost predicate Joined(data: Content, bytes: bool, overlap: nat, e: nat, lo: nat) {
    && e <= |data| && lo <= e - overlap + 3
    && (!bytes ==> lo <= e - overlap)
    && (bytes ==> forall p: nat :: e - overlap <= p < lo && p < |data| ==> Continues(data[p]))
  }

  lemma Prepend(data: Content, bytes: bool, overlap: nat, s: Segment, rest: seq<Segment>)
    requires Chained(data, bytes, overlap, rest) && rest != [] && s.lo < s.hi <= |data| && s.hi < rest[0].hi
    requires s.lo <= rest[0].lo && Joined(data, bytes, overlap, s.hi, rest[0].lo)
    requires s.hi - s.lo <= Step(overlap) + 2 * overlap + if bytes then 3 else 0
    ensures Chained(data, bytes, overlap, [s] + rest)
  {
    hide Joined, Step;
    var t := [s] + rest;
    forall i, j | 0 <= i < j < |t| ensures t[i].hi < t[j].hi && t[i].lo <= t[j].lo {
      assert t[j] == rest[j - 1] && (i > 0 ==> t[i] == rest[i - 1]);
      assert j > 1 ==> rest[0].hi < rest[j - 1].hi && rest[0].lo <= rest[j - 1].lo;
    }
    forall i, j | 0 <= i < |t| - 1 && j == i + 1 ensures Joined(data, bytes, overlap, t[i].hi, t[j].lo) {
      assert t[j] == rest[i];
      assert i > 0 ==> t[i] == rest[i - 1] && Joined(data, bytes, overlap, rest[i - 1].hi, rest[i].lo);
    }
  }

  lemma {:induction false} FromIsChained(data: Content, bytes: bool, start: nat, end: nat, overlap: nat, lo: nat,
                                         at: nat)
    requires Ends(data, bytes, start, end) && start <= at < end && lo <= at <= lo + 2 * overlap
    requires bytes ==> overlap >= 3
    ensures var s := From(data, bytes, start, end, overlap, lo, at);
            && |s| > 0 && s[0].lo == lo && at < s[0].hi && s[|s| - 1].hi == end && Chained(data, bytes, overlap, s)
    decreases end - at
  {
    hide Edge;
    var e := StepEnd(data, bytes, end, overlap, at);
    if e != end {
      NextLowIs(data, bytes, start, end, overlap, at);
      hide StepEnd, NextLow;
      var next := NextLow(data, bytes, start, overlap, e);
      var rest := From(data, bytes, start, end, overlap, next, e);
      FromIsChained(data, bytes, start, end, overlap, next, e);
      hide From, Chained;
      Prepend(data, bytes, overlap, Segment(lo, e), rest);
    }
  }

  lemma SegmentsChain(data: Content, bytes: bool, start: nat, end: nat, overlap: nat)
    requires Ends(data, bytes, start, end) && start < end && (bytes ==> overlap >= 3)
    ensures var s := All(data, bytes, start, end, overlap);
            && |s| > 0 && s[0].lo == start && s[|s| - 1].hi == end && Chained(data, bytes, overlap, s)
  {
    FromIsChained(data, bytes, start, end, overlap, start, start);
  }

  // ----- edges split no character

  /** An edge at `k` of a unit of bytes: at an end of it, after a separator, before a byte that
      starts a character, or after more continuation bytes than a character has. */
  ghost predicate Aligned(unit: Content, k: nat) {
    || k == 0 || k >= |unit| || IsCut(unit[k - 1]) || !Continues(unit[k])
    || (k >= 3 && Continues(unit[k - 1]) && Continues(unit[k - 2]) && Continues(unit[k - 3]))
  }

  lemma EdgeIsAligned(data: Content, low: nat, at: nat, start: nat, end: nat)
    requires start <= low <= at <= |data| && start <= end <= |data| && Edge(data, true, low, at) <= end
    ensures Aligned(data[start..end], Edge(data, true, low, at) - start)
  {
    var e, unit := Edge(data, true, low, at), data[start..end];
    if start < e < end {
      assert unit[e - start] == data[e] && unit[e - start - 1] == data[e - 1];
      if e == at + 3 {
        assert e - start >= 3 ==> unit[e - start - 2] == data[e - 2] && unit[e - start - 3] == data[e - 3];
      }
    }
  }

  /** Both ends of every segment of a unit of bytes. */
  ghost predicate AllAligned(unit: Content, start: nat, segments: seq<Segment>) {
    forall i :: 0 <= i < |segments| ==>
      start <= segments[i].lo <= segments[i].hi
      && Aligned(unit, segments[i].lo - start) && Aligned(unit, segments[i].hi - start)
  }

  lemma {:induction false} FromIsAligned(data: Content, start: nat, end: nat, overlap: nat, lo: nat, at: nat)
    requires Ends(data, true, start, end) && start <= at < end && overlap >= 3
    requires start <= lo <= at && Aligned(data[start..end], lo - start)
    ensures AllAligned(data[start..end], start, From(data, true, start, end, overlap, lo, at))
    decreases end - at
  {
    hide *;
    UnitEnds(data, start, end);
    var unit := data[start..end];
    var e := StepEnd(data, true, end, overlap, at);
    StepIsAligned(data, start, end, overlap, at);
    FromFirst(data, start, end, overlap, lo, at);
    if e != end {
      NextLowIs(data, true, start, end, overlap, at);
      NextIsAligned(data, start, end, overlap, e);
      var lower := NextLow(data, true, start, overlap, e);
      FromIsAligned(data, start, end, overlap, lower, e);
      AlignedOn(unit, start, Segment(lo, e), From(data, true, start, end, overlap, lower, e));
    } else {
      NoneAligned(unit, start);
      AlignedOn(unit, start, Segment(lo, e), []);
    }
  }

  lemma AllIsAligned(data: Content, start: nat, end: nat, overlap: nat)
    requires Ends(data, true, start, end) && start < end && overlap >= 3
    ensures AllAligned(data[start..end], start, All(data, true, start, end, overlap))
  {
    FromIsAligned(data, start, end, overlap, start, start);
  }

  lemma UnitEnds(data: Content, start: nat, end: nat)
    requires Ends(data, true, start, end)
    ensures start <= end <= |data| && forall at :: start <= at <= end ==> Ends(data, true, at, end)
  {
  }

  lemma NoneAligned(unit: Content, start: nat)
    ensures AllAligned(unit, start, [])
  {
  }

  lemma FromFirst(data: Content, start: nat, end: nat, overlap: nat, lo: nat, at: nat)
    requires Ends(data, true, start, end) && start <= at < end
    ensures var e := StepEnd(data, true, end, overlap, at);
            && (e == end ==> From(data, true, start, end, overlap, lo, at) == [Segment(lo, e)] + [])
            && (2 * overlap <= e < end ==>
                  From(data, true, start, end, overlap, lo, at) ==
                  [Segment(lo, e)] + From(data, true, start, end, overlap, NextLow(data, true, start, overlap, e), e))
  {
    hide StepEnd, NextLow;
  }

  lemma AlignedOn(unit: Content, start: nat, s: Segment, rest: seq<Segment>)
    requires start <= s.lo <= s.hi && Aligned(unit, s.lo - start) && Aligned(unit, s.hi - start)
    requires AllAligned(unit, start, rest)
    ensures AllAligned(unit, start, [s] + rest)
  {
    hide Aligned;
  }

  lemma StepIsAligned(data: Content, start: nat, end: nat, overlap: nat, at: nat)
    requires Ends(data, true, start, end) && start <= at < end
    ensures Aligned(data[start..end], StepEnd(data, true, end, overlap, at) - start)
  {
    if end - at > Step(overlap) {
      EdgeIsAligned(data, at + Step(overlap) / 2, at + Step(overlap), start, end);
    }
  }

  lemma NextIsAligned(data: Content, start: nat, end: nat, overlap: nat, e: nat)
    requires start <= e - 2 * overlap && e < end <= |data| && overlap >= 3
    ensures start <= NextLow(data, true, start, overlap, e) <= e
    ensures Aligned(data[start..end], NextLow(data, true, start, overlap, e) - start)
  {
    EdgeIsAligned(data, e - 2 * overlap, e - overlap, start, end);
  }

  /** The first segment that reaches `q`. */
  ghost function FirstReaching(s: seq<Segment>, q: nat): (i: nat)
    requires s != [] && q <= s[|s| - 1].hi
    ensures i < |s| && q <= s[i].hi && (i > 0 ==> s[i - 1].hi < q)
  {
    if |s| == 1 || s[|s| - 2].hi < q then |s| - 1
    else
      assert s[..|s| - 1][|s| - 2] == s[|s| - 2];
      FirstReaching(s[..|s| - 1], q)
  }

  ghost predicate Whole(s: seq<Segment>, p: nat, w: nat) {
    exists i :: 0 <= i < |s| && s[i].lo <= p && p + w <= s[i].hi
  }

  /** A stretch that crosses a joint: it runs past the end of one segment and starts before
      the next. */
  ghost predicate Crosses(s: seq<Segment>, p: nat, w: nat) {
    exists i, j :: 0 <= i < |s| - 1 && j == i + 1 && p < s[j].lo && s[i].hi < p + w
  }

  /** Exactly the stretches that cross a joint lie in no segment. */
  lemma WholeUnlessCrossing(data: Content, bytes: bool, start: nat, end: nat, overlap: nat, p: nat, w: nat)
    requires Ends(data, bytes, start, end) && start < end && (bytes ==> overlap >= 3)
    requires start <= p && p + w <= end
    ensures var s := All(data, bytes, start, end, overlap);
            Whole(s, p, w) <==> !Crosses(s, p, w)
  {
    var s := All(data, bytes, start, end, overlap);
    SegmentsChain(data, bytes, start, end, overlap);
    hide *;
    ChainedIsOrdered(data, bytes, overlap, s);
    var k := FirstReaching(s, p + w);
    if s[k].lo <= p {
      ReachedIsWhole(s, p, w, k);
    } else {
      UnreachedIsSplit(s, p, w, k);
    }
  }

  lemma ChainedIsOrdered(data: Content, bytes: bool, overlap: nat, s: seq<Segment>)
    requires Chained(data, bytes, overlap, s)
    ensures Ordered(s)
  {
  }

  lemma ReachedIsWhole(s: seq<Segment>, p: nat, w: nat, k: nat)
    requires Ordered(s) && k < |s| && s[k].lo <= p && p + w <= s[k].hi && (k > 0 ==> s[k - 1].hi < p + w)
    ensures Whole(s, p, w) && !Crosses(s, p, w)
  {
    forall i, j | 0 <= i < |s| - 1 && j == i + 1 && s[i].hi < p + w ensures s[j].lo <= p {
      assert i < k;
    }
  }

  lemma UnreachedIsSplit(s: seq<Segment>, p: nat, w: nat, k: nat)
    requires Ordered(s) && 0 < k < |s| && p < s[k].lo && s[k - 1].hi < p + w
    ensures !Whole(s, p, w) && Crosses(s, p, w)
  {
    assert Crosses(s, p, w);
    forall i | 0 <= i < |s| && p + w <= s[i].hi ensures p < s[i].lo {
      assert i >= k;
    }
  }

  /** Text: every stretch of up to `overlap + 1` characters lies whole in one segment. Bytes:
      every one that starts at a character, and every other of up to `overlap - 2` bytes. */
  lemma NoShortStretchIsSplit(data: Content, bytes: bool, start: nat, end: nat, overlap: nat, p: nat, w: nat)
    requires Ends(data, bytes, start, end) && start < end && (bytes ==> overlap >= 3)
    requires start <= p && p + w <= end && w <= overlap + 1
    requires !bytes || w <= overlap - 2 || (p < |data| && !Continues(data[p]))
    ensures Whole(All(data, bytes, start, end, overlap), p, w)
  {
    var s := All(data, bytes, start, end, overlap);
    SegmentsChain(data, bytes, start, end, overlap);
    WholeUnlessCrossing(data, bytes, start, end, overlap, p, w);
    hide All, Step;
    forall i, j | 0 <= i < |s| - 1 && j == i + 1 && s[i].hi < p + w ensures s[j].lo <= p {
      assert Joined(data, bytes, overlap, s[i].hi, s[j].lo);
    }
  }

  /** The segments of a unit cover it from its start to its end, each reaching back into the
      one before, none too long. */
  lemma SegmentsCover(data: Content, bytes: bool, start: nat, end: nat, overlap: nat)
    requires Ends(data, bytes, start, end) && start < end && (bytes ==> overlap >= 3)
    ensures var s := All(data, bytes, start, end, overlap);
            && |s| > 0 && s[0].lo == start && s[|s| - 1].hi == end && Chained(data, bytes, overlap, s)
            && forall p: nat :: start <= p < end ==> Whole(s, p, 1)
  {
    hide All, Chained, Whole;
    SegmentsChain(data, bytes, start, end, overlap);
    var s := All(data, bytes, start, end, overlap);
    forall p: nat | start <= p < end ensures Whole(s, p, 1) {
      NoShortStretchIsSplit(data, bytes, start, end, overlap, p, 1);
    }
  }

  // ----- those bounds are exact

  /** Every stretch of `w` of every unit lies whole in one segment. */
  ghost predicate NeverSplits(bytes: bool, overlap: nat, w: nat) {
    forall data: Content, start: nat, end: nat, p: nat ::
      Ends(data, bytes, start, end) && start < end && start <= p && p + w <= end ==>
          Whole(All(data, bytes, start, end, overlap), p, w)
  }

  /** The longest stretch that is never split is one of `overlap + 1` characters of text, but
      only of `overlap - 2` bytes: two short of what the content's splitter documents. */
  lemma LongestNeverSplit(bytes: bool, overlap: nat, w: nat)
    requires bytes ==> overlap >= 3
    ensures NeverSplits(bytes, overlap, w) <==> w <= if bytes then overlap - 2 else overlap + 1
  {
    hide All, Whole;
    if w <= if bytes then overlap - 2 else overlap + 1 {
      forall data: Content, start: nat, end: nat, p: nat
        | Ends(data, bytes, start, end) && start < end && start <= p && p + w <= end
        ensures Whole(All(data, bytes, start, end, overlap), p, w)
      {
        NoShortStretchIsSplit(data, bytes, start, end, overlap, p, w);
      }
    } else {
      var c := if bytes then 0x80 else 97;
      var data := seq(Step(overlap) + 4 + w, i => c);
      SeparatorFreeIsSplit(data, bytes, overlap, w);
      assert Ends(data, bytes, 0, |data|);
    }
  }

  /** A unit of nothing but continuation bytes, or of nothing but plain characters. */
  predicate SeparatorFree(data: Content, bytes: bool) {
    forall i :: 0 <= i < |data| ==> data[i] == if bytes then 0x80 else 97
  }

  /** Where the first step of such a unit ends, and how far the next segment reaches back. */
  function FirstEnd(bytes: bool, overlap: nat): nat {
    Step(overlap) + if bytes then 3 else 0
  }

  function SecondLow(bytes: bool, overlap: nat): nat {
    FirstEnd(bytes, overlap) - overlap + if bytes then 3 else 0
  }

  /** The stretch that starts right before the second segment and is just long enough to run
      past the first is in neither, nor in any other. */
  lemma SeparatorFreeIsSplit(data: Content, bytes: bool, overlap: nat, w: nat)
    requires (bytes ==> overlap >= 3) && w > (if bytes then overlap - 2 else overlap + 1)
    requires SeparatorFree(data, bytes) && |data| >= Step(overlap) + 4 + w
    ensures var p := SecondLow(bytes, overlap) - 1;
            0 <= p && p + w <= |data| && !Whole(All(data, bytes, 0, |data|, overlap), p, w)
  {
    FirstTwo(data, bytes, overlap);
    hide All, Whole, SeparatorFree;
    var s := All(data, bytes, 0, |data|, overlap);
    var p := SecondLow(bytes, overlap) - 1;
    assert Crosses(s, p, w) by {
      assert p < s[1].lo && s[0].hi < p + w;
    }
    WholeUnlessCrossing(data, bytes, 0, |data|, overlap, p, w);
  }

  lemma FirstTwo(data: Content, bytes: bool, overlap: nat)
    requires (bytes ==> overlap >= 3) && SeparatorFree(data, bytes) && |data| > Step(overlap) + 3
    ensures var s := All(data, bytes, 0, |data|, overlap);
            |s| > 1 && s[0].hi == FirstEnd(bytes, overlap) && s[1].lo == SecondLow(bytes, overlap)
  {
    var e, lo := FirstEnd(bytes, overlap), SecondLow(bytes, overlap);
    FirstJoint(data, bytes, overlap);
    hide StepEnd, NextLow, Edge, Chained, Step, SeparatorFree;
    FromUnfolds(data, bytes, 0, |data|, overlap, 0, 0);
    FromIsChained(data, bytes, 0, |data|, overlap, lo, e);
    hide From;
  }

  lemma FirstJoint(data: Content, bytes: bool, overlap: nat)
    requires (bytes ==> overlap >= 3) && SeparatorFree(data, bytes) && |data| > Step(overlap) + 3
    ensures StepEnd(data, bytes, |data|, overlap, 0) == FirstEnd(bytes, overlap)
    ensures NextLow(data, bytes, 0, overlap, FirstEnd(bytes, overlap)) == SecondLow(bytes, overlap)
  {
    var e := FirstEnd(bytes, overlap);
    NoCuts(data, bytes, Step(overlap) / 2, Step(overlap));
    NoCuts(data, bytes, e - 2 * overlap, e - overlap);
    hide LastCut, Past;
  }

  lemma NoCuts(data: Content, bytes: bool, low: nat, at: nat)
    requires low <= at && at + 3 <= |data| && SeparatorFree(data, bytes)
    ensures LastCut(data, low, at) == -1 && (bytes ==> Past(data, at, 3) == at + 3)
  {
  }

  // ----- the loops

  /** An edge: after the last separator, or past at most three continuation bytes. */
  method SegmentEdge(data: Content, bytes: bool, low: nat, at: nat) returns (e: nat)
    requires low <= at <= |data|
    ensures e == Edge(data, bytes, low, at)
  {
    var found := LastCut(data, low, at);
    if found >= 0 {
      return found + 1;
    }
    e := at;
    if bytes {
      for k := 0 to 3
        invariant at <= e <= |data| && Past(data, e, 3 - k) == Past(data, at, 3)
      {
        if e < |data| && 0x80 <= data[e] < 0xC0 {
          e := e + 1;
        }
      }
    }
  }

  method StepTo(data: Content, bytes: bool, end: nat, overlap: nat, at: nat) returns (e: nat)
    requires Ends(data, bytes, at, end) && at < end
    ensures e == StepEnd(data, bytes, end, overlap, at)
  {
    hide Edge;
    var step := Step(overlap);
    if end - at <= step {
      return end;
    }
    e := SegmentEdge(data, bytes, at + step / 2, at + step);
  }

  /** The segments of one long unit, step by step. */
  method LongUnit(data: Content, bytes: bool, start: nat, end: nat, overlap: nat) returns (out: seq<Segment>)
    requires Ends(data, bytes, start, end)
    ensures out == All(data, bytes, start, end, overlap)
  {
    hide Edge, From, StepEnd;
    var low: nat, at: nat := start, start;
    out := [];
    while at < end
      invariant start <= at <= end
      invariant out + From(data, bytes, start, end, overlap, low, at) == All(data, bytes, start, end, overlap)
      decreases end - at
    {
      FromUnfolds(data, bytes, start, end, overlap, low, at);
      ghost var before := out;
      var e := StepTo(data, bytes, end, overlap, at);
      out := out + [Segment(low, e)];
      if e < end {
        NextLowIs(data, bytes, start, end, overlap, at);
        var edge := SegmentEdge(data, bytes, e - 2 * overlap, e - overlap);
        low := Later(start, edge);
        assert low == NextLow(data, bytes, start, overlap, e);
      } else {
        FromUnfolds(data, bytes, start, end, overlap, low, e);
      }
      at := e;
      Regroup(before, out[|before|..], From(data, bytes, start, end, overlap, low, at));
    }
    FromUnfolds(data, bytes, start, end, overlap, low, at);
  }

  lemma FromUnfolds(data: Content, bytes: bool, start: nat, end: nat, overlap: nat, lo: nat, at: nat)
    requires Ends(data, bytes, start, end) && start <= at <= end
    ensures From(data, bytes, start, end, overlap, lo, at) ==
            if at == end then []
            else
              var e := StepEnd(data, bytes, end, overlap, at);
              [Segment(lo, e)]
              + if e == end then []
                else From(data, bytes, start, end, overlap, NextLow(data, bytes, start, overlap, e), e)
  {
  }
}
