/**
What of a blob is scanned: its lines; or the lines of its wide text and then its byte runs;
or its byte runs and then the wide strings found in it. Whether the blob is wide text, what
it decodes to and which wide strings it holds are given: that detection is not modelled.
*/
module Blobs {
  import opened Options
  import opened Segments
  import opened Units
  import opened Lines
  import opened Runs

  function WideKeys(strings: seq<Content>): (k: seq<Key>)
    ensures |k| == |strings| && forall i :: 0 <= i < |k| ==> k[i] == LineKey(strings[i])
  {
    Keyed(strings)
  }

  /** The keys of every unit of the blob, in order: no overlap and no batch in sight. */
  function BlobKeys(data: Content, decoded: Option<Content>, wide: seq<Content>): seq<Key> {
    if decoded.Some? then LineKeys(decoded.value) + RunKeys(data)
    else if NUL !in data then LineKeys(data)
    else RunKeys(data) + WideKeys(wide)
  }

  /** The characters of strings to be joined, one more for each. */
  function Weight(strings: seq<Content>): nat {
    if strings == [] then 0 else Weight(strings[..|strings| - 1]) + |strings[|strings| - 1]| + 1
  }

  lemma {:induction false} JoinMore(strings: seq<Content>, s: Content)
    requires strings != []
    ensures |Join(strings + [s], NUL)| == |Join(strings, NUL)| + 1 + |s|
  {
    if |strings| == 1 {
      assert (strings + [s])[1..] == [s];
    } else {
      assert (strings + [s])[1..] == strings[1..] + [s];
      JoinMore(strings[1..], s);
    }
  }

  lemma {:induction false} JoinWeight(strings: seq<Content>)
    requires strings != []
    ensures |Join(strings, NUL)| + 1 == Weight(strings)
  {
    var head, last := strings[..|strings| - 1], strings[|strings| - 1];
    assert strings == head + [last];
    if head != [] {
      JoinWeight(head);
      JoinMore(head, last);
    }
  }

  lemma WeightMore(strings: seq<Content>, s: Content)
    ensures Weight(strings + [s]) == Weight(strings) + |s| + 1
  {
    assert (strings + [s])[..|strings|] == strings;
  }

  lemma ShortStrings(strings: seq<Content>)
    requires forall i :: 0 <= i < |strings| ==> |strings[i]| <= CHUNK
    ensures WideKeys(strings) == AsText(strings)
  {
  }

  ghost predicate Waiting(pending: seq<Content>) {
    && Weight(pending) <= CHUNK + 1
    && forall i :: 0 <= i < |pending| ==> NUL !in pending[i] && |pending[i]| <= CHUNK
  }

  lemma WaitsToo(pending: seq<Content>, s: Content)
    requires Waiting(pending) && NUL !in s && |s| <= CHUNK && (pending == [] || Weight(pending) + |s| <= CHUNK)
    ensures Waiting(pending + [s])
  {
    WeightMore(pending, s);
    assert Weight([]) == 0;
  }

  /** Joined by NULs, the waiting strings are one batch that lists their keys. */
  lemma FlushIsNumbered(out: seq<Batch>, first: nat, done: seq<Key>, pending: seq<Content>, most: nat)
    requires Numbered(out, first, done) && Bounded(out, most) && pending != [] && Waiting(pending) && most >= CHUNK
    ensures var b := Batch(Join(pending, NUL), NUL, first + |done|, true, None);
            Numbered(out + [b], first, done + WideKeys(pending)) && Bounded(out + [b], most)
  {
    hide Numbered, Bounded, Join, Weight, Split, WideKeys;
    SplitJoin(pending, NUL);
    JoinWeight(pending);
    ShortStrings(pending);
    AddPlain(out, first, done, most, Join(pending, NUL), NUL, true);
  }

  lemma WideKeysJoin(a: seq<Content>, b: seq<Content>)
    ensures WideKeys(a + b) == WideKeys(a) + WideKeys(b)
  {
    KeyedJoins(a, b);
  }

  /** The wide strings, about a chunk at a time, a longer one in segments. */
  method WideRunBatches(wide: seq<Content>, first: nat, overlap: nat) returns (out: seq<Batch>)
    requires forall i :: 0 <= i < |wide| ==> NUL !in wide[i]
    ensures Numbered(out, first, WideKeys(wide)) && Bounded(out, Step(overlap) + 2 * overlap + 3)
    ensures Shown(out, false, true, Longest(false, overlap))
  {
    hide Shown, Numbered, Bounded, WideKeys, Weight, Join, All, Waiting, Step;
    ghost var most := Step(overlap) + 2 * overlap + 3;
    assert most >= CHUNK by { StepIsLarge(overlap); }
    var pending: seq<Content> := [];
    var size, next := 0, first;
    out := [];
    ghost var done: nat := 0;
    ghost var longest := Longest(false, overlap);
    NothingNumbered(first, most);
    PlainShown(Batch([], NUL, first, true, None), false, longest);
    assert Waiting([]) && Weight([]) == 0 by { NothingWaits(); }
    assert WideKeys(wide[..0]) == [] by { NoWideKeys(); }
    for i := 0 to |wide|
      invariant 0 <= done <= i && wide[done..i] == pending && Waiting(pending) && size == Weight(pending)
      invariant next == first + done
      invariant Numbered(out, first, WideKeys(wide[..done])) && |WideKeys(wide[..done])| == done && Bounded(out, most)
      invariant Shown(out, false, true, longest)
    {
      var run := wide[i];
      if pending != [] && (size + |run| > CHUNK || |run| > CHUNK) {
        FlushIsNumbered(out, first, WideKeys(wide[..done]), pending, most);
        PlainShown(Batch(Join(pending, NUL), NUL, next, true, None), false, longest);
        ShownJoins(out, [Batch(Join(pending, NUL), NUL, next, true, None)], false, true, longest);
        out := out + [Batch(Join(pending, NUL), NUL, next, true, None)];
        next := next + |pending|;
        assert wide[..i] == wide[..done] + wide[done..i];
        WideKeysJoin(wide[..done], pending);
        done := i;
        pending, size := [], 0;
        assert Waiting([]) && Weight([]) == 0 by { NothingWaits(); }
      }
      if |run| > CHUNK {
        LongWide(run);
        var segments := LongUnitBatches(run, false, 0, |run|, NUL, next, true, overlap);
        assert run[0..|run|] == run;
        AddBatches(out, first, WideKeys(wide[..done]), most, segments, WideKeys([run]));
        ShownJoins(out, segments, false, true, longest);
        out, next := out + segments, next + 1;
        assert wide[..i + 1] == wide[..done] + [run];
        WideKeysJoin(wide[..done], [run]);
        done := i + 1;
      } else {
        WaitsToo(pending, run);
        WeightMore(pending, run);
        pending, size := pending + [run], size + |run| + 1;
      }
    }
    assert wide[..|wide|] == wide;
    if pending != [] {
      FlushIsNumbered(out, first, WideKeys(wide[..done]), pending, most);
      PlainShown(Batch(Join(pending, NUL), NUL, next, true, None), false, longest);
      ShownJoins(out, [Batch(Join(pending, NUL), NUL, next, true, None)], false, true, longest);
      out := out + [Batch(Join(pending, NUL), NUL, next, true, None)];
      assert wide == wide[..done] + wide[done..|wide|];
      WideKeysJoin(wide[..done], pending);
    }
  }

  lemma NothingWaits()
    ensures Waiting([]) && Weight([]) == 0
  {
  }

  lemma NoWideKeys()
    ensures WideKeys([]) == []
  {
  }

  lemma LongWide(run: Content)
    requires |run| > CHUNK
    ensures WideKeys([run]) == [Hashed(run)]
  {
  }

  /** How many of a blob's first units are lines. */
  function LineCount(data: Content, decoded: Option<Content>): nat {
    if decoded.Some? then |LineKeys(decoded.value)| else if NUL !in data then |LineKeys(data)| else 0
  }

  /** A blob's batches number and key its units alike whatever the overlap, and none is
      longer than two steps and three more. Of every unit, whole in a batch or in segments,
      each stretch of up to `overlap - 2` is seen whole; and a batch says whether its units are
      runs. */
  method Batches(data: Content, decoded: Option<Content>, wide: seq<Content>, overlap: nat) returns (out: seq<Batch>)
    requires overlap >= 3 && forall i :: 0 <= i < |wide| ==> NUL !in wide[i]
    ensures Numbered(out, 1, BlobKeys(data, decoded, wide)) && Bounded(out, 2 * Step(overlap) + 3)
    ensures AllSeen(out, overlap - 2) && Labelled(out, LineCount(data, decoded))
  {
    hide Numbered, Bounded, LineKeys, RunKeys, WideKeys, LongRuns, Split, Shown, AllSeen, Labelled;
    StepIsLarge(overlap);
    var most := 2 * Step(overlap) + 3;
    ghost var n := LineCount(data, decoded);
    if decoded.Some? {
      var lines, next := LineBatches(decoded.value, false, 1, overlap);
      LessBounded(lines, Step(overlap) + 2 * overlap + 3, most);
      var runs, _ := RunBatches(data, next, overlap);
      AddBatches(lines, 1, LineKeys(decoded.value), most, runs, RunKeys(data));
      ShownIsSeen(lines, false, false, overlap + 1, overlap - 2);
      ShownIsSeen(runs, true, true, overlap - 2, overlap - 2);
      ShownIsLabelled(lines, false, false, overlap + 1, 1, LineKeys(decoded.value), n);
      ShownIsLabelled(runs, true, true, overlap - 2, next, RunKeys(data), n);
      BothParts(lines, runs, overlap - 2, n);
      out := lines + runs;
    } else if NUL !in data {
      var next;
      out, next := LineBatches(data, true, 1, overlap);
      LessBounded(out, Step(overlap) + 2 * overlap + 3, most);
      ShownIsSeen(out, true, false, overlap - 2, overlap - 2);
      ShownIsLabelled(out, true, false, overlap - 2, 1, LineKeys(data), n);
    } else {
      var runs, next := RunBatches(data, 1, overlap);
      AllRunsNamed(data);
      var strings := WideRunBatches(wide, next, overlap);
      LessBounded(strings, Step(overlap) + 2 * overlap + 3, most);
      AddBatches(runs, 1, RunKeys(data), most, strings, WideKeys(wide));
      ShownIsSeen(runs, true, true, overlap - 2, overlap - 2);
      ShownIsSeen(strings, false, true, overlap + 1, overlap - 2);
      ShownIsLabelled(runs, true, true, overlap - 2, 1, RunKeys(data), n);
      ShownIsLabelled(strings, false, true, overlap + 1, next, WideKeys(wide), n);
      BothParts(runs, strings, overlap - 2, n);
      out := runs + strings;
    }
  }

  lemma BothParts(a: seq<Batch>, b: seq<Batch>, most: int, n: nat)
    requires AllSeen(a, most) && AllSeen(b, most) && Labelled(a, n) && Labelled(b, n)
    ensures AllSeen(a + b, most) && Labelled(a + b, n)
  {
    hide AllSeen;
    SeenJoins(a, b, most);
  }

  /** The key of unit `number`: the scan's own, and an error where there is no such unit. */
  method UnitKey(data: Content, decoded: Option<Content>, wide: seq<Content>, overlap: nat, number: nat)
      returns (key: Option<Key>)
    requires overlap >= 3 && forall i :: 0 <= i < |wide| ==> NUL !in wide[i]
    ensures var keys := BlobKeys(data, decoded, wide);
            key == if 1 <= number <= |keys| then Some(keys[number - 1]) else None
  {
    hide Numbered, BlobKeys;
    var out := Batches(data, decoded, wide, overlap);
    key := KeyOf(out, 1, BlobKeys(data, decoded, wide), number);
  }
}
