/**
The byte runs of binary content: stretches without control bytes, at least five bytes long,
found a piece of about a chunk at a time by three rewrites. Chunked or not, they are the
maximal runs of the whole content, in order.
*/
module Runs {
  import opened Seqs
  import opened Options
  import opened Segments
  import opened Units

  const MIN_BINARY_TERM: nat := 5
  const NUL: nat := 0

  predicate IsControl(c: nat) {
    c < 0x09 || 0x0A <= c < 0x20 || c == 0x7F
  }

  /** The control bytes: those of ASCII but the tab. */
  lemma ControlBytes(c: nat)
    ensures IsControl(c) <==> (c < 32 && c != '\t' as int) || c == 127
  {
  }

  /** Every control byte read as a NUL. */
  function Nulled(data: Content): (t: Content)
    ensures |t| == |data|
    ensures forall i :: 0 <= i < |t| ==> t[i] == if IsControl(data[i]) then NUL else data[i]
  {
    seq(|data|, i requires 0 <= i < |data| => if IsControl(data[i]) then NUL else data[i])
  }

  function Filter(units: seq<Content>, least: nat): seq<Content> {
    if units == [] then []
    else (if |units[0]| >= least then [units[0]] else []) + Filter(units[1..], least)
  }

  /** The runs that count, of the whole content read at once. */
  function LongRuns(data: Content): seq<Content> {
    Filter(Split(Nulled(data), NUL), 5)
  }

  // ----- the rewrites

  /** How many bytes from here on are no NUL, at most `most`. */
  function Ahead(s: Content, most: nat): (k: nat)
    ensures k <= most && k <= |s|
    ensures forall i :: 0 <= i < k ==> s[i] != NUL
    ensures k == most || k == |s| || s[k] == NUL
  {
    if most == 0 || s == [] || s[0] == NUL then 0 else 1 + Ahead(s[1..], most - 1)
  }

  /** A NUL and one to four other bytes, up to the next NUL, become a NUL. */
  function DropShort(s: Content): Content
    decreases |s|
  {
    if s == [] then []
    else
      var k := Ahead(s[1..], MIN_BINARY_TERM - 1);
      if s[0] == NUL && k >= 1 && 1 + k < |s| && s[1 + k] == NUL then [NUL] + DropShort(s[1 + k..])
      else [s[0]] + DropShort(s[1..])
  }

  /** Two or more NULs in a row become one. */
  function DropRepeats(s: Content): Content {
    if |s| < 2 then s
    else if s[0] == NUL && s[1] == NUL then DropRepeats(s[1..])
    else [s[0]] + DropRepeats(s[1..])
  }

  function StripLeft(s: Content): Content {
    if s != [] && s[0] == NUL then StripLeft(s[1..]) else s
  }

  function StripRight(s: Content): Content {
    if s != [] && s[|s| - 1] == NUL then StripRight(s[..|s| - 1]) else s
  }

  /** The runs of a piece, between NULs. */
  function Rewritten(piece: Content): Content {
    StripRight(StripLeft(DropRepeats(DropShort([NUL] + Nulled(piece) + [NUL]))))
  }

  // ----- what the rewrites do, run by run

  /** The runs, each after a NUL, and a last NUL. */
  function Bracket(runs: seq<Content>): (s: Content)
    ensures |s| >= 1 && s[0] == NUL && s[|s| - 1] == NUL
  {
    if runs == [] then [NUL] else [NUL] + runs[0] + Bracket(runs[1..])
  }

  ghost predicate NoNul(runs: seq<Content>) {
    forall i :: 0 <= i < |runs| ==> NUL !in runs[i]
  }

  lemma {:induction false} BracketOfSplit(t: Content)
    ensures Bracket(Split(t, NUL)) == [NUL] + t + [NUL]
  {
    if t == [] {
      assert Split(t, NUL)[1..] == [];
    } else {
      BracketOfSplit(t[1..]);
      var rest := Split(t[1..], NUL);
      if t[0] == NUL {
        assert Split(t, NUL)[1..] == rest;
        assert [NUL] + [] + ([NUL] + t[1..] + [NUL]) == [NUL] + t + [NUL];
      } else {
        assert Split(t, NUL)[1..] == rest[1..];
        assert [NUL] + rest[0] + Bracket(rest[1..]) == [NUL] + t[1..] + [NUL];
        Insert(rest[0], Bracket(rest[1..]), t);
      }
    }
  }

  lemma Insert(r: Content, b: Content, t: Content)
    requires t != [] && [NUL] + r + b == [NUL] + t[1..] + [NUL]
    ensures [NUL] + ([t[0]] + r) + b == [NUL] + t + [NUL]
  {
    assert ([NUL] + r + b)[1..] == r + b;
    assert ([NUL] + t[1..] + [NUL])[1..] == t[1..] + [NUL];
    assert [NUL] + ([t[0]] + r) + b == [NUL] + [t[0]] + (r + b);
  }

  function Blanked(runs: seq<Content>): seq<Content> {
    if runs == [] then []
    else [if |runs[0]| < MIN_BINARY_TERM then [] else runs[0]] + Blanked(runs[1..])
  }

  lemma {:induction false} DropShortCopies(r: Content, s: Content)
    requires NUL !in r
    ensures DropShort(r + s) == r + DropShort(s)
  {
    hide *;
    if r == [] {
      assert r + s == s && [] + DropShort(s) == DropShort(s);
    } else {
      assert r[0] != NUL && (r + s)[0] == r[0] && (r + s)[1..] == r[1..] + s;
      assert NUL !in r[1..];
      DropShortCopies(r[1..], s);
      DropShortPasses(r + s);
      Regroup([r[0]], r[1..], DropShort(s));
      assert [r[0]] + r[1..] == r;
    }
  }

  lemma DropShortPasses(s: Content)
    requires s != [] && s[0] != NUL
    ensures DropShort(s) == [s[0]] + DropShort(s[1..])
  {
    hide Ahead;
  }

  lemma AheadIs(r: Content, s: Content, most: nat)
    requires NUL !in r && s != [] && s[0] == NUL
    ensures Ahead(r + s, most) == if |r| <= most then |r| else most
  {
    assert forall i :: 0 <= i < |r| ==> (r + s)[i] == r[i];
    assert (r + s)[|r|] == s[0];
  }

  lemma {:induction false} DropShortRuns(runs: seq<Content>)
    requires NoNul(runs)
    ensures DropShort(Bracket(runs)) == Bracket(Blanked(runs))
  {
    if runs == [] {
      assert DropShort([NUL]) == [NUL];
    } else {
      var r, rest := runs[0], Bracket(runs[1..]);
      DropShortRuns(runs[1..]);
      assert Blanked(runs)[1..] == Blanked(runs[1..]);
      if 1 <= |r| < MIN_BINARY_TERM {
        ShortGoes(r, rest);
      } else {
        StaysLong(r, rest);
      }
    }
  }

  lemma ShortGoes(r: Content, rest: Content)
    requires NUL !in r && rest != [] && rest[0] == NUL && 1 <= |r| < MIN_BINARY_TERM
    ensures DropShort([NUL] + r + rest) == [NUL] + [] + DropShort(rest)
  {
    hide Ahead, DropShort;
    var s := [NUL] + r + rest;
    assert s[1..] == r + rest;
    AheadIs(r, rest, MIN_BINARY_TERM - 1);
    assert s[1 + |r|..] == rest && s[1 + |r|] == NUL;
    DropShortIs(s, |r|);
  }

  lemma DropShortIs(s: Content, k: nat)
    requires s != [] && k == Ahead(s[1..], MIN_BINARY_TERM - 1)
    ensures DropShort(s) ==
            if s[0] == NUL && k >= 1 && 1 + k < |s| && s[1 + k] == NUL then [NUL] + DropShort(s[1 + k..])
            else [s[0]] + DropShort(s[1..])
  {
  }

  /** An empty run or a long one is not taken for a short one. */
  lemma StaysLong(r: Content, rest: Content)
    requires NUL !in r && rest != [] && rest[0] == NUL && (|r| == 0 || |r| >= MIN_BINARY_TERM)
    ensures DropShort([NUL] + r + rest) == [NUL] + r + DropShort(rest)
  {
    hide DropShort;
    NotShort(r, rest);
    DropShortCopies(r, rest);
    Regroup([NUL], r, DropShort(rest));
  }

  lemma NotShort(r: Content, rest: Content)
    requires NUL !in r && rest != [] && rest[0] == NUL && (|r| == 0 || |r| >= MIN_BINARY_TERM)
    ensures DropShort([NUL] + r + rest) == [NUL] + DropShort(r + rest)
  {
    hide Ahead, DropShort;
    var s, k := [NUL] + r + rest, if |r| == 0 then 0 else MIN_BINARY_TERM - 1;
    assert s[1..] == r + rest;
    AheadIs(r, rest, MIN_BINARY_TERM - 1);
    DropShortIs(s, k);
    if |r| > 0 {
      assert s[1 + k] == r[k] && r[k] in r;
    }
  }

  lemma {:induction false} DropRepeatsCopies(r: Content, s: Content)
    requires NUL !in r && s != []
    ensures DropRepeats(r + s) == r + DropRepeats(s)
  {
    if r == [] {
      assert r + s == s;
    } else {
      assert r[0] != NUL && (r + s)[1..] == r[1..] + s;
      assert NUL !in r[1..];
      DropRepeatsCopies(r[1..], s);
    }
  }

  lemma {:induction false} DropRepeatsRuns(runs: seq<Content>)
    requires NoNul(runs)
    ensures DropRepeats(Bracket(runs)) == Bracket(Filter(runs, 1))
  {
    if runs != [] {
      DropRepeatsRuns(runs[1..]);
      hide DropRepeats;
      RepeatGoes(runs[0], Bracket(runs[1..]));
      if runs[0] == [] {
        assert Filter(runs, 1) == Filter(runs[1..], 1);
      } else {
        assert Filter(runs, 1)[1..] == Filter(runs[1..], 1);
      }
    }
  }

  lemma RepeatGoes(r: Content, rest: Content)
    requires NUL !in r && rest != [] && rest[0] == NUL
    ensures DropRepeats([NUL] + r + rest) == if r == [] then DropRepeats(rest) else [NUL] + r + DropRepeats(rest)
  {
    var s := [NUL] + r + rest;
    assert s[1..] == r + rest;
    if r == [] {
      assert r + rest == rest;
    } else {
      assert s[1] == r[0] && r[0] in r;
      DropRepeatsCopies(r, rest);
      Regroup([NUL], r, DropRepeats(rest));
    }
  }

  lemma {:induction false} FilterBlanked(runs: seq<Content>)
    ensures Filter(Blanked(runs), 1) == Filter(runs, MIN_BINARY_TERM)
  {
    if runs != [] {
      FilterBlanked(runs[1..]);
      assert Blanked(runs)[1..] == Blanked(runs[1..]);
    }
  }

  lemma {:induction false} BlankedNoNul(runs: seq<Content>)
    requires NoNul(runs)
    ensures NoNul(Blanked(runs))
  {
    if runs != [] {
      BlankedNoNul(runs[1..]);
    }
  }

  lemma {:induction false} FilterKeeps(runs: seq<Content>, least: nat)
    requires NoNul(runs)
    ensures NoNul(Filter(runs, least))
    ensures forall i :: 0 <= i < |Filter(runs, least)| ==> |Filter(runs, least)[i]| >= least
  {
    if runs != [] {
      FilterKeeps(runs[1..], least);
    }
  }

  lemma {:induction false} BracketIsJoin(runs: seq<Content>)
    requires runs != []
    ensures Bracket(runs) == [NUL] + Join(runs, NUL) + [NUL]
  {
    if |runs| == 1 {
      assert Bracket(runs[1..]) == [NUL];
    } else {
      BracketIsJoin(runs[1..]);
      var tail := Join(runs[1..], NUL);
      assert [NUL] + runs[0] + ([NUL] + tail + [NUL]) == [NUL] + (runs[0] + [NUL] + tail) + [NUL];
    }
  }

  lemma {:induction false} JoinEnds(runs: seq<Content>)
    requires runs != [] && NoNul(runs) && forall i :: 0 <= i < |runs| ==> runs[i] != []
    ensures var s := Join(runs, NUL); s != [] && s[0] != NUL && s[|s| - 1] != NUL
  {
    assert runs[0][0] in runs[0] && runs[0][|runs[0]| - 1] in runs[0];
    if |runs| > 1 {
      JoinEnds(runs[1..]);
    }
  }

  lemma StripBracket(runs: seq<Content>)
    requires NoNul(runs) && forall i :: 0 <= i < |runs| ==> runs[i] != []
    ensures StripRight(StripLeft(Bracket(runs))) == if runs == [] then [] else Join(runs, NUL)
  {
    hide Join, NoNul, StripLeft, StripRight;
    if runs == [] {
      StripLastNul();
    } else {
      hide Bracket;
      BracketIsJoin(runs);
      JoinEnds(runs);
      StripOnce(Join(runs, NUL));
    }
  }

  lemma StripLastNul()
    ensures StripRight(StripLeft([NUL])) == []
  {
    assert StripLeft([NUL]) == [];
  }

  lemma StripOnce(j: Content)
    requires j != [] && j[0] != NUL && j[|j| - 1] != NUL
    ensures StripRight(StripLeft([NUL] + j + [NUL])) == j
  {
    var s := [NUL] + j + [NUL];
    assert s[1..] == j + [NUL];
    assert StripLeft(j + [NUL]) == j + [NUL];
    assert (j + [NUL])[..|j|] == j;
  }

  /** The rewrites leave exactly the runs that count. */
  lemma RewrittenIs(piece: Content)
    ensures Rewritten(piece) == if LongRuns(piece) == [] then [] else Join(LongRuns(piece), NUL)
    ensures LongRuns(piece) != [] ==> Rewritten(piece) != [] && Split(Rewritten(piece), NUL) == LongRuns(piece)
  {
    hide DropShort, DropRepeats, StripLeft, StripRight, Bracket, Split, Filter, Blanked, Join, Nulled;
    var t := Nulled(piece);
    var runs := Split(t, NUL);
    var kept := LongRuns(piece);
    SplitShort(t, NUL);
    BracketOfSplit(t);
    DropShortRuns(runs);
    BlankedNoNul(runs);
    DropRepeatsRuns(Blanked(runs));
    FilterBlanked(runs);
    FilterKeeps(runs, MIN_BINARY_TERM);
    StripBracket(kept);
    if kept != [] {
      SplitJoin(kept, NUL);
      JoinEnds(kept);
    }
  }

  // ----- pieces of the content

  lemma {:induction false} FilterJoins(a: seq<Content>, b: seq<Content>, least: nat)
    ensures Filter(a + b, least) == Filter(a, least) + Filter(b, least)
  {
    if a == [] {
      assert a + b == b;
    } else {
      assert (a + b)[1..] == a[1..] + b;
      FilterJoins(a[1..], b, least);
    }
  }

  /** Cut at any control byte, both sides have their own runs. */
  lemma RunsAt(a: Content, c: nat, b: Content)
    requires IsControl(c)
    ensures LongRuns(a + [c] + b) == LongRuns(a) + LongRuns(b)
  {
    hide Split, Filter;
    assert Nulled(a + [c] + b) == Nulled(a) + [NUL] + Nulled(b);
    SplitAt(Nulled(a), Nulled(b), NUL);
    FilterJoins(Split(Nulled(a), NUL), Split(Nulled(b), NUL), MIN_BINARY_TERM);
  }

  /** Content without a control byte is one run, or none. */
  lemma OneRun(r: Content)
    requires forall i :: 0 <= i < |r| ==> !IsControl(r[i])
    ensures LongRuns(r) == if |r| >= MIN_BINARY_TERM then [r] else []
  {
    assert Nulled(r) == r;
    assert NUL !in r;
    SplitNone(r, NUL);
    hide Split, Nulled;
    assert [r][1..] == [];
    assert Filter([r], MIN_BINARY_TERM) == (if |r| >= MIN_BINARY_TERM then [r] else []) + Filter([], MIN_BINARY_TERM);
  }

  // ----- a piece at a time

  /** The first control byte from `lo` on, or the content's length. */
  function NextControl(data: Content, lo: nat): (i: nat)
    ensures i <= |data| && (lo <= |data| ==> lo <= i) && (i < |data| ==> lo <= i && IsControl(data[i]))
    ensures forall j :: lo <= j < i ==> !IsControl(data[j])
    decreases |data| - lo
  {
    if lo >= |data| then |data| else if IsControl(data[lo]) then lo else NextControl(data, lo + 1)
  }

  /** Right after the last control byte of the first `hi`. */
  function AfterControl(data: Content, hi: nat): (i: nat)
    requires hi <= |data|
    ensures i <= hi && (i > 0 ==> IsControl(data[i - 1]))
    ensures forall j :: i <= j < hi ==> !IsControl(data[j])
  {
    if hi == 0 || IsControl(data[hi - 1]) then hi else AfterControl(data, hi - 1)
  }

  /** The keys of the runs, piece by piece: a run longer than two chunks from its piece's
      start is keyed by its hash. */
  function RunKeys(rest: Content): seq<Key>
    decreases |rest|
  {
    if rest == [] then []
    else
      var cut := NextControl(rest, CHUNK);
      PieceKeys(rest, cut) + RunKeys(Rest(rest, cut))
  }

  /** The keys name these runs: a text of at most two chunks, or the hash of more than one. */
  ghost predicate Names(keys: seq<Key>, runs: seq<Content>) {
    && |keys| == |runs|
    && forall i :: 0 <= i < |keys| ==>
         (keys[i] == Text(runs[i]) && |runs[i]| <= 0x8_0000) || (keys[i] == Hashed(runs[i]) && |runs[i]| > 0x4_0000)
  }

  lemma NamesJoin(a: seq<Key>, b: seq<Key>, x: seq<Content>, y: seq<Content>)
    requires Names(a, x) && Names(b, y)
    ensures Names(a + b, x + y)
  {
  }

  lemma {:induction false} FilterShort(runs: seq<Content>, least: nat, most: nat)
    requires forall i :: 0 <= i < |runs| ==> |runs[i]| <= most
    ensures forall i :: 0 <= i < |Filter(runs, least)| ==> |Filter(runs, least)[i]| <= most
  {
    if runs != [] {
      FilterShort(runs[1..], least, most);
    }
  }

  lemma PieceNames(piece: Content)
    requires |piece| <= 2 * CHUNK
    ensures Names(AsText(LongRuns(piece)), LongRuns(piece))
  {
    SplitShort(Nulled(piece), NUL);
    FilterShort(Split(Nulled(piece), NUL), MIN_BINARY_TERM, 2 * CHUNK);
    hide Split, Filter;
  }

  /** The rest of the content after the control byte at `cut`, or nothing. */
  lemma RunsCut(rest: Content, cut: nat)
    requires cut <= |rest| && (cut < |rest| ==> IsControl(rest[cut]))
    ensures LongRuns(rest) == LongRuns(rest[..cut]) + LongRuns(Rest(rest, cut))
  {
    if cut < |rest| {
      hide LongRuns;
      assert rest == rest[..cut] + [rest[cut]] + rest[cut + 1..];
      RunsAt(rest[..cut], rest[cut], rest[cut + 1..]);
    } else {
      assert rest[..cut] == rest;
      OneRun([]);
    }
  }

  /** The run that crosses the end of a chunk, and what stands before it. */
  lemma LongRunCut(piece: Content, from: nat)
    requires from <= CHUNK && |piece| > 2 * CHUNK && (from > 0 ==> IsControl(piece[from - 1]))
    requires forall j :: from <= j < |piece| ==> !IsControl(piece[j])
    ensures LongRuns(piece) == LongRuns(piece[..from]) + [piece[from..]]
  {
    hide LongRuns;
    OneRun(piece[from..]);
    if from > 0 {
      RunsCut(piece[..from], from - 1);
      OneRun([]);
      assert piece[..from][..from - 1] == piece[..from - 1];
      assert piece[..from][from..] == [];
      RunsCut(piece, from - 1);
    } else {
      OneRun([]);
      assert piece[from..] == piece;
    }
  }

  /** What follows the piece that ends at `cut`. */
  function Rest(rest: Content, cut: nat): (r: Content)
    ensures rest != [] ==> |r| < |rest|
  {
    if cut < |rest| then rest[cut + 1..] else []
  }

  /** The keys of the first piece. */
  function PieceKeys(rest: Content, cut: nat): seq<Key>
    requires cut <= |rest|
  {
    if cut <= 2 * CHUNK then AsText(LongRuns(rest[..cut]))
    else AsText(LongRuns(rest[..AfterControl(rest, CHUNK)])) + [Hashed(rest[AfterControl(rest, CHUNK)..cut])]
  }

  lemma PieceKeysNameItsRuns(rest: Content, cut: nat)
    requires cut == NextControl(rest, CHUNK)
    ensures Names(PieceKeys(rest, cut), LongRuns(rest[..cut]))
  {
    hide LongRuns, Names, NextControl;
    var piece := rest[..cut];
    if cut <= 2 * CHUNK {
      PieceNames(piece);
    } else {
      var from := AfterControl(rest, CHUNK);
      hide AfterControl;
      assert piece[..from] == rest[..from] && piece[from..] == rest[from..cut];
      LongRunCut(piece, from);
      PieceNames(rest[..from]);
      LongNames(rest[from..cut]);
      NamesJoin(AsText(LongRuns(rest[..from])), [Hashed(rest[from..cut])], LongRuns(rest[..from]), [rest[from..cut]]);
    }
  }

  /** The keys name exactly the runs of the whole content, in order. */
  lemma {:induction false} KeysNameTheRuns(rest: Content)
    ensures Names(RunKeys(rest), LongRuns(rest))
    decreases |rest|
  {
    if rest == [] {
      OneRun([]);
    } else {
      hide LongRuns, Names, NextControl, PieceKeys;
      var cut := NextControl(rest, CHUNK);
      KeysNameTheRuns(Rest(rest, cut));
      RunsCut(rest, cut);
      PieceKeysNameItsRuns(rest, cut);
      NamesJoin(PieceKeys(rest, cut), RunKeys(Rest(rest, cut)), LongRuns(rest[..cut]), LongRuns(Rest(rest, cut)));
    }
  }

  lemma LongNames(run: Content)
    requires |run| > CHUNK
    ensures Names([Hashed(run)], [run])
  {
  }

  /** A run between one and two chunks long is keyed by its text where it stands alone, and
      by its hash after a chunk of other content. */
  lemma KeyDependsOnPlace(before: Content, run: Content)
    requires |before| == CHUNK && IsControl(before[CHUNK - 1])
    requires CHUNK < |run| <= 2 * CHUNK && forall j :: 0 <= j < |run| ==> !IsControl(run[j])
    ensures RunKeys(run) == [Text(run)]
    ensures RunKeys(before + run) == AsText(LongRuns(before)) + [Hashed(run)]
  {
    hide LongRuns;
    OneRun(run);
    assert NextControl(run, CHUNK) == |run|;
    assert run[..|run|] == run;
    assert RunKeys([]) == [];
    var data := before + run;
    assert NextControl(data, CHUNK) == |data|;
    assert AfterControl(data, CHUNK) == CHUNK;
    assert data[..CHUNK] == before && data[CHUNK..|data|] == run;
  }

  /** Wherever the run stands in whatever content, its key is the same. */
  ghost predicate SameKeyEverywhere(run: Content) {
    forall a: Content, i: nat, b: Content, j: nat :: Stands(a, i, run) && Stands(b, j, run) ==>
        RunKey(a, i) == RunKey(b, j)
  }

  /** The i-th long run of the content. */
  ghost predicate Stands(data: Content, i: nat, run: Content) {
    i < |LongRuns(data)| && LongRuns(data)[i] == run
  }

  ghost function RunKey(data: Content, i: nat): Option<Key> {
    if i < |RunKeys(data)| then Some(RunKeys(data)[i]) else None
  }

  /** A run's key does not depend on where it stands exactly when it is at most one chunk long,
      or longer than two. */
  lemma PlaceMattersExactly(run: Content)
    requires |run| >= MIN_BINARY_TERM && forall j :: 0 <= j < |run| ==> !IsControl(run[j])
    ensures SameKeyEverywhere(run) <==> |run| <= CHUNK || |run| > 2 * CHUNK
  {
    if |run| <= CHUNK || |run| > 2 * CHUNK {
      var key := if |run| <= CHUNK then Text(run) else Hashed(run);
      forall a: Content, i: nat | Stands(a, i, run) ensures RunKey(a, i) == Some(key) {
        hide LongRuns, RunKeys;
        KeysNameTheRuns(a);
      }
    } else {
      TwoPlaces(run);
    }
  }

  lemma TwoPlaces(run: Content)
    requires CHUNK < |run| <= 2 * CHUNK && forall j :: 0 <= j < |run| ==> !IsControl(run[j])
    ensures !SameKeyEverywhere(run)
  {
    var before: Content := seq(CHUNK, i => 0);
    assert IsControl(before[CHUNK - 1]);
    var data, i := before + run, |LongRuns(before)|;
    KeyDependsOnPlace(before, run);
    OneRun(run);
    hide LongRuns, RunKeys, IsControl;
    assert RunKeys(data)[i] == Hashed(run) && |RunKeys(data)| == i + 1;
    KeysNameTheRuns(data);
    assert Stands(run, 0, run) && Stands(data, i, run);
    assert RunKey(run, 0) == Some(Text(run)) && RunKey(data, i) == Some(Hashed(run));
  }

  /** The runs of one piece, as one batch. */
  method RunPiece(data: Content, start: nat, end: nat, first: nat) returns (out: seq<Batch>, next: nat)
    requires start <= end <= |data|
    ensures Numbered(out, first, AsText(LongRuns(data[start..end]))) && next == first + |LongRuns(data[start..end])|
    ensures Bounded(out, end - start) && forall most :: Shown(out, true, true, most)
  {
    hide Numbered, LongRuns, Split, Shown;
    forall most ensures Shown([], true, true, most) {
      PlainShown(Batch([], NUL, first, true, None), true, most);
    }
    var piece := data[start..end];
    var text := Rewritten(piece);
    RewrittenIs(piece);
    RewrittenShrinks(piece);
    NothingNumbered(first, end - start);
    if text == [] {
      assert AsText(LongRuns(piece)) == [];
      return [], first;
    }
    PlainNumbered(text, NUL, first, true);
    SplitCount(text, NUL);
    out, next := [Batch(text, NUL, first, true, None)], first + Count(text, NUL) + 1;
    forall most ensures Shown(out, true, true, most) {
      PlainShown(out[0], true, most);
    }
  }

  lemma {:induction false} BracketShrinks(runs: seq<Content>, least: nat)
    ensures |Bracket(Filter(runs, least))| <= |Bracket(runs)|
  {
    if runs != [] {
      BracketShrinks(runs[1..], least);
      if |runs[0]| >= least {
        assert Filter(runs, least)[1..] == Filter(runs[1..], least);
      } else {
        assert Filter(runs, least) == Filter(runs[1..], least);
      }
    }
  }

  lemma RewrittenShrinks(piece: Content)
    ensures |Rewritten(piece)| <= |piece|
  {
    hide Rewritten, Bracket, Filter, Split;
    RewrittenIs(piece);
    if LongRuns(piece) != [] {
      var t := Nulled(piece);
      BracketOfSplit(t);
      BracketShrinks(Split(t, NUL), MIN_BINARY_TERM);
      BracketIsJoin(LongRuns(piece));
    }
  }

  lemma NextControlIs(data: Content, lo: nat, i: nat)
    requires lo <= i <= |data| && (i < |data| ==> IsControl(data[i])) && forall j :: lo <= j < i ==> !IsControl(data[j])
    ensures NextControl(data, lo) == i
  {
    hide IsControl, NextControl;
    var k := NextControl(data, lo);
    assert k >= i;
  }

  lemma AfterControlIs(data: Content, hi: nat, i: nat)
    requires i <= hi <= |data| && (i > 0 ==> IsControl(data[i - 1])) && forall j :: i <= j < hi ==> !IsControl(data[j])
    ensures AfterControl(data, hi) == i
  {
    hide IsControl, AfterControl;
    var k := AfterControl(data, hi);
    assert k <= i && i <= k;
  }

  /** The piece at `start`, seen as the head of the rest. */
  lemma PieceOfRest(data: Content, start: nat, runEnd: nat)
    requires start < |data| && runEnd == NextControl(data, start + CHUNK)
    ensures start <= runEnd && NextControl(data[start..], CHUNK) == runEnd - start
    ensures RunKeys(data[start..]) ==
            PieceKeys(data[start..], runEnd - start) + RunKeys(if runEnd < |data| then data[runEnd + 1..] else [])
  {
    var rest := data[start..];
    hide PieceKeys, IsControl;
    NextControlShifts(data, start, runEnd);
    hide NextControl;
    RunKeysIs(rest, runEnd - start);
    RestIs(data, start, runEnd);
    hide RunKeys, Rest;
  }

  lemma RestIs(data: Content, start: nat, runEnd: nat)
    requires start <= runEnd <= |data|
    ensures Rest(data[start..], runEnd - start) == if runEnd < |data| then data[runEnd + 1..] else []
  {
  }

  lemma NextControlShifts(data: Content, start: nat, runEnd: nat)
    requires start < |data| && runEnd == NextControl(data, start + CHUNK)
    ensures start <= runEnd && NextControl(data[start..], CHUNK) == runEnd - start
  {
    var rest := data[start..];
    hide IsControl;
    if start + CHUNK <= |data| {
      hide NextControl;
      assert forall j :: CHUNK <= j < runEnd - start ==> rest[j] == data[start + j];
      NextControlIs(rest, CHUNK, runEnd - start);
    }
  }

  lemma RunKeysIs(rest: Content, cut: nat)
    requires rest != [] && cut == NextControl(rest, CHUNK)
    ensures RunKeys(rest) == PieceKeys(rest, cut) + RunKeys(Rest(rest, cut))
  {
    hide PieceKeys, NextControl, Rest;
  }

  /** The control byte that ends a piece belongs to no run. */
  lemma TrailingControl(data: Content, start: nat, runEnd: nat, end: nat)
    requires start <= runEnd <= end <= |data| && end <= runEnd + 1 && (runEnd < end ==> IsControl(data[runEnd]))
    ensures LongRuns(data[start..end]) == LongRuns(data[start..runEnd])
  {
    hide LongRuns, IsControl;
    if runEnd < end {
      var piece := data[start..end];
      RunsCut(piece, runEnd - start);
      OneRun([]);
      assert piece[..runEnd - start] == data[start..runEnd] && Rest(piece, runEnd - start) == [];
    }
  }

  lemma ShortPieceKeys(data: Content, start: nat, runEnd: nat, end: nat)
    requires start <= runEnd <= end <= |data| && end <= runEnd + 1 && (runEnd < end ==> IsControl(data[runEnd]))
    requires runEnd - start <= 2 * CHUNK
    ensures PieceKeys(data[start..], runEnd - start) == AsText(LongRuns(data[start..end]))
  {
    hide LongRuns, IsControl;
    TrailingControl(data, start, runEnd, end);
    assert data[start..][..runEnd - start] == data[start..runEnd];
  }

  lemma LongPieceKeys(data: Content, start: nat, runEnd: nat, from: nat)
    requires start + 2 * CHUNK < runEnd <= |data| && from == start + AfterControl(data[start..start + CHUNK], CHUNK)
    ensures PieceKeys(data[start..], runEnd - start) ==
              AsText(LongRuns(data[start..from])) + [Hashed(data[from..runEnd])]
  {
    hide *;
    var i := from - start;
    SameAfterControl(data, start);
    LongKeysAre(data[start..], runEnd - start, i);
    Shifted(data, start, 0, i);
    Shifted(data, start, i, runEnd - start);
    assert data[start..][..i] == data[start..][0..i];
  }

  lemma SameAfterControl(data: Content, start: nat)
    requires start + CHUNK <= |data|
    ensures AfterControl(data[start..], CHUNK) == AfterControl(data[start..start + CHUNK], CHUNK) <= CHUNK
  {
    var rest, head := data[start..], data[start..start + CHUNK];
    assert forall j :: 0 <= j < CHUNK ==> rest[j] == head[j];
    hide IsControl;
    AfterControlIs(rest, CHUNK, AfterControl(head, CHUNK));
  }

  lemma LongKeysAre(rest: Content, cut: nat, i: nat)
    requires 2 * CHUNK < cut <= |rest| && i == AfterControl(rest, CHUNK) <= CHUNK
    ensures PieceKeys(rest, cut) == AsText(LongRuns(rest[..i])) + [Hashed(rest[i..cut])]
  {
    hide AfterControl, LongRuns, AsText;
  }

  lemma Shifted(data: Content, start: nat, a: nat, b: nat)
    requires a <= b && start + b <= |data|
    ensures data[start..][a..b] == data[start + a..start + b]
  {
  }

  /** The batches of one piece: its runs, and the long run that ends it. */
  method PieceBatches(data: Content, start: nat, runEnd: nat, end: nat, first: nat, overlap: nat)
      returns (out: seq<Batch>, next: nat)
    requires overlap >= 3 && start < |data| && runEnd == NextControl(data, start + CHUNK)
    requires end == if runEnd < |data| then runEnd + 1 else |data|
    ensures start <= runEnd && Numbered(out, first, PieceKeys(data[start..], runEnd - start))
    ensures next == first + |PieceKeys(data[start..], runEnd - start)|
    ensures Bounded(out, 2 * Step(overlap) + 3) && Shown(out, true, true, Longest(true, overlap))
  {
    hide Shown, Numbered, Bounded, LongRuns, NextControl, AfterControl, All, PieceKeys;
    PieceOfRest(data, start, runEnd);
    if runEnd - start <= 2 * CHUNK {
      ShortPieceKeys(data, start, runEnd, end);
      out, next := RunPiece(data, start, end, first);
      LessBounded(out, end - start, 2 * Step(overlap) + 3);
    } else {
      out, next := LongPieceBatches(data, start, runEnd, first, overlap);
    }
  }

  /** A piece that ends in a run of more than a chunk: the runs before it, then its segments. */
  method LongPieceBatches(data: Content, start: nat, runEnd: nat, first: nat, overlap: nat)
      returns (out: seq<Batch>, next: nat)
    requires overlap >= 3 && start + 2 * CHUNK < runEnd <= |data| && (runEnd < |data| ==> IsControl(data[runEnd]))
    ensures Numbered(out, first, PieceKeys(data[start..], runEnd - start))
    ensures next == first + |PieceKeys(data[start..], runEnd - start)|
    ensures Bounded(out, 2 * Step(overlap) + 3) && Shown(out, true, true, Longest(true, overlap))
  {
    hide Shown, Numbered, Bounded, LongRuns, AfterControl, All, PieceKeys;
    SameAfterControl(data, start);
    var runStart := start + AfterControl(data[start..start + CHUNK], CHUNK);
    LongPieceKeys(data, start, runEnd, runStart);
    out, next := RunPiece(data, start, runStart, first);
    ghost var most := 2 * Step(overlap) + 3;
    LessBounded(out, runStart - start, most);
    var segments := LongUnitBatches(data, true, runStart, runEnd, NUL, next, true, overlap);
    LessBounded(segments, Step(overlap) + 2 * overlap + 3, most);
    AddBatches(out, first, AsText(LongRuns(data[start..runStart])), most, segments, [Hashed(data[runStart..runEnd])]);
    ShownJoins(out, segments, true, true, Longest(true, overlap));
    out, next := out + segments, next + 1;
  }

  /** Whatever the chunks and the overlap, the batches list the runs of the whole content,
      each under its number. */
  method RunBatches(data: Content, first: nat, overlap: nat) returns (out: seq<Batch>, next: nat)
    requires overlap >= 3
    ensures Numbered(out, first, RunKeys(data)) && next == first + |LongRuns(data)|
    ensures Bounded(out, 2 * Step(overlap) + 3) && Shown(out, true, true, Longest(true, overlap))
  {
    hide Shown, Numbered, Bounded, LongRuns, RunKeys, NextControl, PieceKeys, Names, Step;
    var start, size := 0, |data|;
    out, next := [], first;
    ghost var done: seq<Key> := [];
    ghost var most := 2 * Step(overlap) + 3;
    ghost var longest := Longest(true, overlap);
    NothingNumbered(first, most);
    PlainShown(Batch([], NUL, first, true, None), true, longest);
    assert data[0..] == data;
    while start < size
      invariant 0 <= start <= size
      invariant Numbered(out, first, done) && next == first + |done| && Bounded(out, most)
      invariant Shown(out, true, true, longest)
      invariant done + RunKeys(data[start..]) == RunKeys(data)
      decreases size - start
    {
      var runEnd := NextControl(data, start + CHUNK);
      var end := if runEnd < size then runEnd + 1 else size;
      PieceOfRest(data, start, runEnd);
      ghost var keys := PieceKeys(data[start..], runEnd - start);
      var more, after := PieceBatches(data, start, runEnd, end, next, overlap);
      AddBatches(out, first, done, most, more, keys);
      ShownJoins(out, more, true, true, longest);
      out, next := out + more, after;
      assert runEnd == size ==> data[end..] == [];
      done := done + keys;
      start := end;
    }
    assert data[start..] == [];
    NoKeys();
    assert done + [] == done;
    AllRunsNamed(data);
  }

  lemma NoKeys()
    ensures RunKeys([]) == []
  {
  }

  lemma AllRunsNamed(data: Content)
    ensures |RunKeys(data)| == |LongRuns(data)|
  {
    KeysNameTheRuns(data);
  }
}
