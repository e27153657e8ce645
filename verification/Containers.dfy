/**
The members of nested containers under one budget for the whole blob. A blob is its size
and the container it is; reading is bounded, so a member over the limit is read one byte
past it. The generators' items are returned as one sequence, in the order they are yielded.
*/
module Containers {
  import opened Options

  datatype Blob = Blob(size: nat, kind: Kind)

  /** A zip or tar with its listing, or one whose listing fails; a compressed stream; a
      container no reader knows. */
  datatype Kind = Plain | Unreadable | BrokenArchive | Archive(entries: Listing) | Stream(content: Blob, sound: bool)

  datatype Listing = Nil | Cons(head: Entry, tail: Listing)

  /** `Empty`: a folder or another entry without content. `Packed`: a zip member with the
      size it declares; an unsound one breaks after `content`. `Filed`: a tar member. */
  datatype Entry =
    | Empty(name: string)
    | Locked(name: string)
    | Packed(name: string, declared: nat, content: Blob, sound: bool)
    | Filed(name: string, declared: nat, content: Blob, readable: bool)

  datatype Why =
    | ArchiveBroken | MemberBroken | Encrypted | NoReader | TooDeep | MemberTooLarge
    | TooMuch | TooManyTimes | TooMany

  datatype Item = Found(path: seq<string>, blob: Blob) | Problem(path: seq<string>, why: Why)

  const MEMBER_LIMIT: nat := 0x200_0000
  const EXPANSION_LIMIT: nat := 0x800_0000
  const RATIO_LIMIT: nat := 20
  const RATIO_FLOOR: nat := 0x10_0000
  const MEMBER_COUNT_LIMIT: nat := 10000
  const DEPTH_LIMIT: nat := 4

  const NOTHING: Blob := Blob(0, Plain)

  /** The limits of the whole blob: nothing more of it is read after one of these. */
  predicate BlobWide(why: Why) {
    why.TooMuch? || why.TooManyTimes? || why.TooMany?
  }

  // ----- the budget

  datatype Tally = Tally(cap: nat, expanded: nat, members: nat, over: bool) {
    predicate Valid() {
      cap <= EXPANSION_LIMIT && expanded <= cap && (!over ==> members <= MEMBER_COUNT_LIMIT)
    }

    function Room(): nat {
      if cap <= expanded then 0 else if MEMBER_LIMIT <= cap - expanded then MEMBER_LIMIT else cap - expanded
    }

    function Refusal(size: nat): Option<Why> {
      if size > MEMBER_LIMIT then Some(MemberTooLarge)
      else if expanded + size > EXPANSION_LIMIT then Some(TooMuch)
      else if expanded + size > cap then Some(TooManyTimes)
      else None
    }

    /** The tally after asking about `size`. */
    function Asked(size: nat): Tally {
      if Refusal(size).Some? && BlobWide(Refusal(size).value) then this.(over := true) else this
    }

    function Spent(size: nat): Tally {
      this.(expanded := expanded + size)
    }

    function Counted(n: nat): Tally {
      this.(members := members + n, over := over || members + n > MEMBER_COUNT_LIMIT)
    }
  }

  function Fresh(size: nat): Tally {
    var ratio := RATIO_LIMIT * size;
    var lenient := if RATIO_FLOOR >= ratio then RATIO_FLOOR else ratio;
    Tally(if EXPANSION_LIMIT <= lenient then EXPANSION_LIMIT else lenient, 0, 0, false)
  }

  /** What a bounded read gives: how many bytes, or that the member is broken. */
  function Read(content: Blob, sound: bool, limit: nat): Option<nat> {
    if content.size >= limit then Some(limit) else if sound then Some(content.size) else None
  }

  datatype Admission = Admit(blob: Blob) | Refuse(why: Why)

  datatype Admitted = Admitted(admission: Admission, tally: Tally)

  /** A member read by its own bytes: the declared size first, then what was read. */
  function Content(content: Blob, sound: bool, t: Tally): Admitted {
    match Read(content, sound, t.Room() + 1)
    case None => Admitted(Refuse(MemberBroken), t)
    case Some(n) =>
      if t.Refusal(n).Some? then Admitted(Refuse(t.Refusal(n).value), t.Asked(n))
      else Admitted(Admit(content), t.Spent(n))
  }

  /** What becomes of an entry whose archive is read. */
  function Consider(e: Entry, t: Tally): Admitted {
    match e
    case Empty(_) => Admitted(Admit(NOTHING), t)
    case Locked(_) => Admitted(Refuse(Encrypted), t)
    case Packed(_, declared, content, sound) =>
      if t.Refusal(declared).Some? then Admitted(Refuse(t.Refusal(declared).value), t.Asked(declared))
      else Content(content, sound, t)
    case Filed(_, declared, content, readable) =>
      if t.Refusal(declared).Some? then Admitted(Refuse(t.Refusal(declared).value), t.Asked(declared))
      else if !readable || content.size != declared then Admitted(Refuse(MemberBroken), t)
      else Admitted(Admit(content), t.Spent(declared))
  }

  // ----- the expansion

  datatype Expansion = Expansion(items: seq<Item>, tally: Tally)

  function Length(list: Listing): nat {
    if list.Nil? then 0 else 1 + Length(list.tail)
  }

  /** A part, then what its container holds. */
  function Expand(path: seq<string>, blob: Blob, depth: nat, t: Tally): (r: Expansion)
    requires depth <= DEPTH_LIMIT
    decreases DEPTH_LIMIT - depth, 2, 0
  {
    var inside := Inside(path, blob, depth, t);
    Expansion([Found(path, blob)] + inside.items, inside.tally)
  }

  function Inside(path: seq<string>, blob: Blob, depth: nat, t: Tally): (r: Expansion)
    requires depth <= DEPTH_LIMIT
    decreases DEPTH_LIMIT - depth, 1, 0
  {
    if blob.kind.Plain? || t.over then Expansion([], t)
    else if blob.kind.Unreadable? then Expansion([Problem(path, NoReader)], t)
    else if depth == DEPTH_LIMIT then Expansion([Problem(path, TooDeep)], t)
    else
      match blob.kind
      case BrokenArchive => Expansion([Problem(path, ArchiveBroken)], t)
      case Archive(entries) =>
        var counted := t.Counted(Length(entries));
        if counted.members > MEMBER_COUNT_LIMIT then Expansion([Problem(path, TooMany)], counted)
        else Members(path, entries, depth, counted)
      case Stream(content, sound) =>
        var counted := t.Counted(1);
        if counted.members > MEMBER_COUNT_LIMIT then Expansion([Problem(path + [""], TooMany)], counted)
        else One(path + [""], Content(content, sound, counted), depth)
  }

  /** One member: expanded in turn, or a problem. */
  function One(path: seq<string>, a: Admitted, depth: nat): (r: Expansion)
    requires depth < DEPTH_LIMIT
    decreases DEPTH_LIMIT - depth - 1, 3, 0
  {
    match a.admission
    case Admit(blob) => Expand(path, blob, depth + 1, a.tally)
    case Refuse(why) => Expansion([Problem(path, why)], a.tally)
  }

  function Members(path: seq<string>, list: Listing, depth: nat, t: Tally): (r: Expansion)
    requires depth < DEPTH_LIMIT
    decreases DEPTH_LIMIT - depth, 0, list
  {
    if list.Nil? || t.over then Expansion([], t)
    else
      var first := One(path + [list.head.name], Consider(list.head, t), depth);
      var rest := Members(path, list.tail, depth, first.tally);
      Expansion(first.items + rest.items, rest.tally)
  }

  /** Everything inside, read without any limit. */
  function Naive(path: seq<string>, blob: Blob): seq<Item>
    decreases blob
  {
    [Found(path, blob)] + NaiveInside(path, blob.kind)
  }

  function NaiveInside(path: seq<string>, kind: Kind): seq<Item>
    decreases kind
  {
    match kind
    case Archive(entries) => NaiveMembers(path, entries)
    case Stream(content, _) => Naive(path + [""], content)
    case _ => []
  }

  function NaiveMembers(path: seq<string>, list: Listing): seq<Item>
    decreases list
  {
    match list
    case Nil => []
    case Cons(e, rest) => NaiveEntry(path, e) + NaiveMembers(path, rest)
  }

  function NaiveEntry(path: seq<string>, e: Entry): seq<Item>
    decreases e
  {
    match e
    case Empty(name) => [Found(path + [name], NOTHING)]
    case Locked(name) => []
    case Packed(name, _, content, _) => Naive(path + [name], content)
    case Filed(name, _, content, _) => Naive(path + [name], content)
  }

  // ----- an over-limit member always shows

  /** What is admitted was read whole: reading one byte past the room always shows a member
      that is larger. */
  lemma AdmittedWhole(content: Blob, sound: bool, t: Tally)
    requires t.Valid()
    ensures Content(content, sound, t).admission.Admit? <==> sound && t.Refusal(content.size).None?
    ensures Content(content, sound, t).admission.Admit? ==>
              Content(content, sound, t) == Admitted(Admit(content), t.Spent(content.size))
    ensures Content(content, sound, t).tally.Valid()
  {
  }

  lemma ConsiderIs(e: Entry, t: Tally)
    requires t.Valid() && !t.over
    ensures var a := Consider(e, t);
            && a.tally.Valid() && a.tally.cap == t.cap && a.tally.members == t.members
            && (a.admission.Admit? ==> !a.tally.over && a.tally.expanded == t.expanded + a.admission.blob.size)
            && (a.admission.Refuse? ==> a.tally.expanded == t.expanded && (a.tally.over <==> BlobWide(a.admission.why)))
  {
  }

  // ----- what every run keeps

  function Bytes(items: seq<Item>): nat {
    if items == [] then 0 else (if items[0].Found? then items[0].blob.size else 0) + Bytes(items[1..])
  }

  function Count(items: seq<Item>): nat {
    if items == [] then 0 else (if items[0].Found? then 1 else 0) + Count(items[1..])
  }

  lemma {:induction false} Sums(a: seq<Item>, b: seq<Item>)
    ensures Bytes(a + b) == Bytes(a) + Bytes(b) && Count(a + b) == Count(a) + Count(b)
  {
    if a == [] {
      assert a + b == b;
    } else {
      Sums(a[1..], b);
      assert (a + b)[1..] == a[1..] + b;
    }
  }

  /** A blob-wide problem is the last item, exactly when the budget is over. */
  ghost predicate LastWord(items: seq<Item>, over: bool) {
    && (over ==> items != [])
    && forall i :: 0 <= i < |items| ==> ((items[i].Problem? && BlobWide(items[i].why)) <==> (over && i == |items| - 1))
  }

  ghost predicate Shallow(items: seq<Item>, most: nat) {
    forall i :: 0 <= i < |items| ==> |items[i].path| <= most
  }

  function Least(a: nat, b: nat): nat {
    if a <= b then a else b
  }

  /** From one tally to another by these items, `counted` of whose members were counted
      before. */
  ghost predicate Kept(items: seq<Item>, t: Tally, later: Tally, counted: nat, most: nat) {
    && later.Valid() && later.cap == t.cap && later.expanded == t.expanded + Bytes(items) && t.members <= later.members
    && Count(items) + t.members <= counted + Least(MEMBER_COUNT_LIMIT, later.members)
    && LastWord(items, later.over) && Shallow(items, most)
  }

  lemma KeptJoins(a: seq<Item>, b: seq<Item>, t: Tally, mid: Tally, later: Tally, x: nat, y: nat, most: nat)
    requires Kept(a, t, mid, x, most) && !mid.over && Kept(b, mid, later, y, most)
    ensures Kept(a + b, t, later, x + y, most)
  {
    Sums(a, b);
    hide Bytes, Count, BlobWide;
    var all := a + b;
    forall i | 0 <= i < |all|
      ensures (all[i].Problem? && BlobWide(all[i].why)) <==> (later.over && i == |all| - 1)
      ensures |all[i].path| <= most
    {
      assert if i < |a| then all[i] == a[i] else all[i] == b[i - |a|];
    }
  }

  lemma KeptMore(a: seq<Item>, t: Tally, later: Tally, x: nat, y: nat, most: nat)
    requires Kept(a, t, later, x, most) && x <= y
    ensures Kept(a, t, later, y, most)
  {
  }

  lemma KeptNothing(t: Tally, counted: nat, most: nat)
    requires t.Valid() && !t.over
    ensures Kept([], t, t, counted, most)
  {
  }

  lemma ProblemWeighs(p: Item)
    requires p.Problem?
    ensures Bytes([p]) == 0 && Count([p]) == 0
  {
    assert [p][1..] == [];
    assert Bytes([]) == 0 && Count([]) == 0;
  }

  lemma KeptProblem(path: seq<string>, why: Why, t: Tally, later: Tally, most: nat)
    requires later.Valid() && later.cap == t.cap && later.expanded == t.expanded && t.members <= later.members
    requires t.members <= MEMBER_COUNT_LIMIT && |path| <= most && (later.over <==> BlobWide(why))
    ensures Kept([Problem(path, why)], t, later, 0, most)
  {
    var items := [Problem(path, why)];
    ProblemWeighs(items[0]);
    assert items == [items[0]];
    hide Bytes, Count;
  }

  lemma {:induction false} OneKeeps(path: seq<string>, a: Admitted, t: Tally, depth: nat)
    requires depth < DEPTH_LIMIT && t.Valid() && !t.over && a.tally.Valid() && a.tally.cap == t.cap
             && a.tally.members == t.members
    requires a.admission.Admit? ==> !a.tally.over && a.tally.expanded == t.expanded + a.admission.blob.size
    requires a.admission.Refuse? ==> a.tally.expanded == t.expanded && (a.tally.over <==> BlobWide(a.admission.why))
    ensures var r := One(path, a, depth);
            Kept(r.items, t, r.tally, 1, |path| + DEPTH_LIMIT - depth - 1)
    decreases DEPTH_LIMIT - depth - 1, 3, 0
  {
    var most := |path| + DEPTH_LIMIT - depth - 1;
    match a.admission {
      case Admit(blob) =>
        InsideKeeps(path, blob, depth + 1, a.tally);
        var head := [Found(path, blob)];
        assert Bytes(head) == blob.size && Count(head) == 1 by { assert head[1..] == []; }
        hide Inside, Bytes, Count;
        assert Kept(head, t, a.tally, 1, most);
        var r := Inside(path, blob, depth + 1, a.tally);
        KeptJoins(head, r.items, t, a.tally, r.tally, 1, 0, most);
      case Refuse(why) =>
        KeptProblem(path, why, t, a.tally, most);
        KeptMore([Problem(path, why)], t, a.tally, 0, 1, most);
    }
  }

  lemma {:induction false} InsideKeeps(path: seq<string>, blob: Blob, depth: nat, t: Tally)
    requires depth <= DEPTH_LIMIT && t.Valid() && !t.over
    ensures var r := Inside(path, blob, depth, t);
            Kept(r.items, t, r.tally, 0, |path| + DEPTH_LIMIT - depth)
    decreases DEPTH_LIMIT - depth, 1, 0
  {
    var most := |path| + DEPTH_LIMIT - depth;
    var r := Inside(path, blob, depth, t);
    hide Kept;
    if blob.kind.Plain? {
      KeptNothing(t, 0, most);
    } else if blob.kind.Unreadable? {
      KeptProblem(path, NoReader, t, t, most);
    } else if depth == DEPTH_LIMIT {
      KeptProblem(path, TooDeep, t, t, most);
    } else {
      match blob.kind {
        case BrokenArchive => KeptProblem(path, ArchiveBroken, t, t, most);
        case Archive(entries) =>
          var n := Length(entries);
          var counted := t.Counted(n);
          if counted.members > MEMBER_COUNT_LIMIT {
            KeptProblem(path, TooMany, t, counted, most);
          } else {
            MembersKeep(path, entries, depth, counted);
            KeptCounted(r.items, t, n, r.tally, most);
          }
        case Stream(content, sound) =>
          var counted := t.Counted(1);
          if counted.members > MEMBER_COUNT_LIMIT {
            KeptProblem(path + [""], TooMany, t, counted, most);
          } else {
            ContentIs(content, sound, counted);
            OneKeeps(path + [""], Content(content, sound, counted), counted, depth);
            KeptCounted(r.items, t, 1, r.tally, most);
          }
      }
    }
  }

  lemma ContentIs(content: Blob, sound: bool, t: Tally)
    requires t.Valid() && !t.over
    ensures var a := Content(content, sound, t);
            && a.tally.Valid() && a.tally.cap == t.cap && a.tally.members == t.members
            && (a.admission.Admit? ==> !a.tally.over && a.tally.expanded == t.expanded + a.admission.blob.size)
            && (a.admission.Refuse? ==> a.tally.expanded == t.expanded && (a.tally.over <==> BlobWide(a.admission.why)))
  {
  }

  lemma KeptCounted(items: seq<Item>, t: Tally, n: nat, later: Tally, most: nat)
    requires Kept(items, t.Counted(n), later, n, most)
    ensures Kept(items, t, later, 0, most)
  {
  }

  lemma {:induction false} MembersKeep(path: seq<string>, list: Listing, depth: nat, t: Tally)
    requires depth < DEPTH_LIMIT && t.Valid() && !t.over
    ensures var r := Members(path, list, depth, t);
            Kept(r.items, t, r.tally, Length(list), |path| + DEPTH_LIMIT - depth)
    decreases DEPTH_LIMIT - depth, 0, list
  {
    var most := |path| + DEPTH_LIMIT - depth;
    if list.Nil? {
      KeptNothing(t, 0, most);
    } else {
      var a := Consider(list.head, t);
      ConsiderIs(list.head, t);
      hide Consider, Kept;
      OneKeeps(path + [list.head.name], a, t, depth);
      var first := One(path + [list.head.name], a, depth);
      var n := Length(list.tail);
      if first.tally.over {
        assert first.items + [] == first.items;
        KeptMore(first.items, t, first.tally, 1, 1 + n, most);
      } else {
        KeptIsValid(first.items, t, first.tally, 1, most);
        MembersKeep(path, list.tail, depth, first.tally);
        var rest := Members(path, list.tail, depth, first.tally);
        KeptJoins(first.items, rest.items, t, first.tally, rest.tally, 1, n, most);
      }
    }
  }

  lemma KeptIsValid(items: seq<Item>, t: Tally, later: Tally, counted: nat, most: nat)
    requires Kept(items, t, later, counted, most)
    ensures later.Valid()
  {
  }

  /** Whatever a blob holds: the members found inside it are at most its cap in bytes all
      together, at most 10000, none nested deeper than four; a blob-wide problem is the last
      thing said, so nothing is found after the budget is over. */
  lemma ExpansionIsBounded(path: seq<string>, blob: Blob)
    ensures var t := Fresh(blob.size);
            var r := Expand(path, blob, 0, t);
            && r.items[0] == Found(path, blob)
            && Bytes(r.items[1..]) == r.tally.expanded <= t.cap
            && (20 * blob.size <= 0x10_0000 ==> t.cap == 0x10_0000)
            && (0x10_0000 <= 20 * blob.size <= 0x800_0000 ==> t.cap == 20 * blob.size)
            && (20 * blob.size >= 0x800_0000 ==> t.cap == 0x800_0000)
            && Count(r.items[1..]) <= 10000
            && Shallow(r.items, |path| + 4)
            && LastWord(r.items[1..], r.tally.over)
  {
    var t := Fresh(blob.size);
    InsideKeeps(path, blob, 0, t);
    var inside, r := Inside(path, blob, 0, t), Expand(path, blob, 0, t);
    hide Inside, Bytes, Count, LastWord;
    assert r.items[1..] == inside.items;
    forall i | 0 <= i < |r.items| ensures |r.items[i].path| <= |path| + DEPTH_LIMIT {
      assert i > 0 ==> r.items[i] == inside.items[i - 1];
    }
  }

  // ----- nothing is skipped in silence

  ghost predicate NoProblem(items: seq<Item>) {
    forall i :: 0 <= i < |items| ==> items[i].Found?
  }

  lemma NoProblemSplits(a: seq<Item>, b: seq<Item>)
    ensures NoProblem(a + b) <==> NoProblem(a) && NoProblem(b)
  {
    var all := a + b;
    if NoProblem(all) {
      forall i | 0 <= i < |a| ensures a[i].Found? {
        assert all[i] == a[i];
      }
      forall i | 0 <= i < |b| ensures b[i].Found? {
        assert all[|a| + i] == b[i];
      }
    }
  }

  lemma OneProblem(path: seq<string>, why: Why)
    ensures !NoProblem([Problem(path, why)])
  {
    assert [Problem(path, why)][0].Problem?;
  }

  lemma OneFound(path: seq<string>, blob: Blob)
    ensures NoProblem([Found(path, blob)]) && Bytes([Found(path, blob)]) == blob.size && Count([Found(path, blob)]) == 1
  {
    assert [Found(path, blob)][1..] == [];
  }

  /** The entry an admission was made for. */
  lemma AdmittedIs(path: seq<string>, e: Entry, t: Tally)
    requires t.Valid() && !t.over && Consider(e, t).admission.Admit?
    ensures NaiveEntry(path, e) == Naive(path + [e.name], Consider(e, t).admission.blob)
  {
    if e.Packed? {
      AdmittedWhole(e.content, e.sound, t);
    } else if e.Empty? {
      var p := path + [e.name];
      assert Naive(p, NOTHING) == [Found(p, NOTHING)] + [];
    }
  }

  lemma {:induction false} OneIsNaive(path: seq<string>, a: Admitted, depth: nat)
    requires depth < DEPTH_LIMIT && a.tally.Valid()
    requires a.admission.Admit? ==> !a.tally.over
    requires NoProblem(One(path, a, depth).items)
    ensures a.admission.Admit? && One(path, a, depth).items == Naive(path, a.admission.blob)
    decreases DEPTH_LIMIT - depth - 1, 3, 0
  {
    if a.admission.Refuse? {
      OneProblem(path, a.admission.why);
    } else {
      var blob := a.admission.blob;
      var inside := Inside(path, blob, depth + 1, a.tally);
      assert One(path, a, depth).items == [Found(path, blob)] + inside.items;
      NoProblemSplits([Found(path, blob)], inside.items);
      hide NoProblem, Inside;
      InsideIsNaive(path, blob, depth + 1, a.tally);
    }
  }

  /** Without a problem, what was yielded inside a part is everything inside it. */
  lemma {:induction false} InsideIsNaive(path: seq<string>, blob: Blob, depth: nat, t: Tally)
    requires depth <= DEPTH_LIMIT && t.Valid() && !t.over && NoProblem(Inside(path, blob, depth, t).items)
    ensures Inside(path, blob, depth, t).items == NaiveInside(path, blob.kind)
    decreases DEPTH_LIMIT - depth, 1, 0
  {
    OneProblem(path, NoReader);
    OneProblem(path, TooDeep);
    OneProblem(path, ArchiveBroken);
    OneProblem(path, TooMany);
    OneProblem(path + [""], TooMany);
    hide NoProblem;
    match blob.kind {
      case Archive(entries) => MembersAreNaive(path, entries, depth, t.Counted(Length(entries)));
      case Stream(content, sound) =>
        var counted := t.Counted(1);
        ContentIs(content, sound, counted);
        OneIsNaive(path + [""], Content(content, sound, counted), depth);
        AdmittedWhole(content, sound, counted);
      case _ =>
    }
  }

  lemma {:induction false} MembersAreNaive(path: seq<string>, list: Listing, depth: nat, t: Tally)
    requires depth < DEPTH_LIMIT && t.Valid() && !t.over && NoProblem(Members(path, list, depth, t).items)
    ensures Members(path, list, depth, t).items == NaiveMembers(path, list)
    decreases DEPTH_LIMIT - depth, 0, list
  {
    if list.Cons? {
      var a := Consider(list.head, t);
      ConsiderIs(list.head, t);
      var first := One(path + [list.head.name], a, depth);
      NoProblemSplits(first.items, Members(path, list.tail, depth, first.tally).items);
      OneIsNaive(path + [list.head.name], a, depth);
      AdmittedIs(path, list.head, t);
      OneKeeps(path + [list.head.name], a, t, depth);
      CleanIsNotOver(first.items, t, first.tally, 1, |path| + DEPTH_LIMIT - depth);
      hide One, Consider, Naive, NaiveEntry;
      MembersAreNaive(path, list.tail, depth, first.tally);
    }
  }

  lemma CleanIsNotOver(items: seq<Item>, t: Tally, later: Tally, counted: nat, most: nat)
    requires Kept(items, t, later, counted, most) && NoProblem(items)
    ensures later.Valid() && !later.over
  {
    if items != [] {
      assert items[|items| - 1].Found?;
    }
  }

  /** A run without a problem found every nested member, whole and in order. */
  lemma NothingIsSkipped(path: seq<string>, blob: Blob)
    requires NoProblem(Expand(path, blob, 0, Fresh(blob.size)).items)
    ensures Expand(path, blob, 0, Fresh(blob.size)).items == Naive(path, blob)
  {
    var t := Fresh(blob.size);
    NoProblemSplits([Found(path, blob)], Inside(path, blob, 0, t).items);
    InsideIsNaive(path, blob, 0, t);
  }

  // ----- exactly when there is no problem

  /** Nothing inside is broken, encrypted, unknown, too large or too deep; a tar's sizes are its
      members' own, and no zip declares a member too large. */
  predicate Readable(kind: Kind, depth: nat)
    decreases kind
  {
    && !kind.Unreadable? && (!kind.Plain? ==> depth < DEPTH_LIMIT) && !kind.BrokenArchive?
    && (kind.Archive? ==> ReadableAll(kind.entries, depth))
    && (kind.Stream? ==> kind.sound && kind.content.size <= MEMBER_LIMIT && Readable(kind.content.kind, depth + 1))
  }

  predicate ReadableAll(list: Listing, depth: nat)
    decreases list
  {
    list.Nil? || (ReadableEntry(list.head, depth) && ReadableAll(list.tail, depth))
  }

  predicate ReadableEntry(e: Entry, depth: nat)
    decreases e
  {
    && !e.Locked?
    && (e.Packed? ==> e.sound && e.declared <= MEMBER_LIMIT)
    && (e.Filed? ==> e.readable && e.declared == e.content.size)
    && (e.Packed? || e.Filed? ==> e.content.size <= MEMBER_LIMIT && Readable(e.content.kind, depth + 1))
  }

  /** Each size a zip declares, true or not, fits the cap when its turn comes, `used` bytes
      having been read before. */
  predicate DeclaredFits(path: seq<string>, kind: Kind, used: nat, cap: nat)
    decreases kind
  {
    match kind
    case Archive(entries) => DeclaredFitsAll(path, entries, used, cap)
    case Stream(content, _) => DeclaredFits(path + [""], content.kind, used + content.size, cap)
    case _ => true
  }

  predicate DeclaredFitsAll(path: seq<string>, list: Listing, used: nat, cap: nat)
    decreases list
  {
    list.Nil? || (DeclaredFitsEntry(path, list.head, used, cap)
                  && DeclaredFitsAll(path, list.tail, used + Bytes(NaiveEntry(path, list.head)), cap))
  }

  predicate DeclaredFitsEntry(path: seq<string>, e: Entry, used: nat, cap: nat)
    decreases e
  {
    && (e.Packed? ==> used + e.declared <= cap)
    && (e.Packed? || e.Filed? ==> DeclaredFits(path + [e.name], e.content.kind, used + e.content.size, cap))
  }

  /** The items' bytes and members fit what the tally has left. */
  predicate Fits(t: Tally, items: seq<Item>, counted: nat) {
    t.expanded + Bytes(items) <= t.cap && t.members + Count(items) <= MEMBER_COUNT_LIMIT + counted
  }

  /** The tally after all of the items, `counted` of them counted before. */
  ghost predicate Paid(t: Tally, items: seq<Item>, counted: nat, later: Tally) {
    && !later.over && later.cap == t.cap && later.expanded == t.expanded + Bytes(items)
    && later.members + counted == t.members + Count(items)
  }

  lemma {:induction false} EveryMemberCounts(path: seq<string>, list: Listing, depth: nat)
    requires ReadableAll(list, depth)
    ensures Count(NaiveMembers(path, list)) >= Length(list)
    decreases list
  {
    if list.Cons? {
      EveryMemberCounts(path, list.tail, depth);
      var e := list.head;
      Sums(NaiveEntry(path, e), NaiveMembers(path, list.tail));
      assert NaiveMembers(path, list) == NaiveEntry(path, e) + NaiveMembers(path, list.tail);
      hide NaiveMembers;
      if e.Empty? {
        OneFound(path + [e.name], NOTHING);
      } else {
        OneFound(path + [e.name], e.content);
        Sums([Found(path + [e.name], e.content)], NaiveInside(path + [e.name], e.content.kind));
      }
    }
  }

  /** One member of known content, `good` when it can be read. */
  lemma {:induction false} AdmissionIsExact(path: seq<string>, content: Blob, good: bool, a: Admitted, t: Tally,
                                            depth: nat)
    requires depth < DEPTH_LIMIT && t.Valid() && !t.over
    requires a.admission.Admit? <==> good && t.Refusal(content.size).None?
    requires a.admission.Admit? ==> a == Admitted(Admit(content), t.Spent(content.size))
    ensures var r, naive := One(path, a, depth), Naive(path, content);
            && (NoProblem(r.items) <==>
                good && content.size <= MEMBER_LIMIT && Readable(content.kind, depth + 1) && Fits(t, naive, 1)
                && DeclaredFits(path, content.kind, t.expanded + content.size, t.cap))
            && (NoProblem(r.items) ==> Paid(t, naive, 1, r.tally))
    decreases DEPTH_LIMIT - depth - 1, 3, 0
  {
    var inside := NaiveInside(path, content.kind);
    OneFound(path, content);
    Sums([Found(path, content)], inside);
    hide Readable, Bytes, Count, NaiveInside, DeclaredFits;
    if a.admission.Refuse? {
      OneProblem(path, a.admission.why);
    } else {
      var got := Inside(path, content, depth + 1, a.tally);
      NoProblemSplits([Found(path, content)], got.items);
      hide NoProblem, Inside;
      InsideIsExact(path, content, depth + 1, a.tally);
    }
  }

  lemma {:induction false} EntryIsExact(path: seq<string>, e: Entry, t: Tally, depth: nat)
    requires depth < DEPTH_LIMIT && t.Valid() && !t.over
    ensures var r, naive := One(path + [e.name], Consider(e, t), depth), NaiveEntry(path, e);
            && (NoProblem(r.items) <==>
                  ReadableEntry(e, depth) && Fits(t, naive, 1) && DeclaredFitsEntry(path, e, t.expanded, t.cap))
            && (NoProblem(r.items) ==> Paid(t, naive, 1, r.tally))
    decreases DEPTH_LIMIT - depth, 0, e, 0
  {
    var p := path + [e.name];
    match e {
      case Empty(_) =>
        OneFound(p, NOTHING);
        assert [Found(p, NOTHING)] + [] == [Found(p, NOTHING)];
        assert Inside(p, NOTHING, depth + 1, t) == Expansion([], t);
        assert One(p, Consider(e, t), depth) == Expansion([Found(p, NOTHING)], t);
      case Locked(_) => OneProblem(p, Encrypted);
      case Packed(_, declared, content, sound) =>
        AdmittedWhole(content, sound, t);
        AdmissionIsExact(p, content, sound && t.Refusal(declared).None?, Consider(e, t), t, depth);
      case Filed(_, declared, content, readable) =>
        AdmissionIsExact(p, content, readable && declared == content.size, Consider(e, t), t, depth);
    }
  }

  lemma {:induction false} MembersAreExact(path: seq<string>, list: Listing, depth: nat, t: Tally)
    requires depth < DEPTH_LIMIT && t.Valid() && !t.over
    ensures var r, naive := Members(path, list, depth, t), NaiveMembers(path, list);
            && (NoProblem(r.items) <==>
                  ReadableAll(list, depth) && Fits(t, naive, Length(list))
                  && DeclaredFitsAll(path, list, t.expanded, t.cap))
            && (NoProblem(r.items) ==> Paid(t, naive, Length(list), r.tally))
    decreases DEPTH_LIMIT - depth, 0, list, 1
  {
    if list.Cons? {
      var e := list.head;
      var first := One(path + [e.name], Consider(e, t), depth);
      var rest := Members(path, list.tail, depth, first.tally);
      var x, y := NaiveEntry(path, e), NaiveMembers(path, list.tail);
      EntryIsExact(path, e, t, depth);
      NoProblemSplits(first.items, rest.items);
      Sums(x, y);
      hide One, Consider, NaiveEntry, NoProblem, Bytes, Count, ReadableEntry, DeclaredFitsEntry;
      if NoProblem(first.items) {
        MembersAreExact(path, list.tail, depth, first.tally);
      } else if ReadableAll(list, depth) {
        EveryMemberCounts(path, list.tail, depth);
      }
    }
  }

  lemma {:induction false} InsideIsExact(path: seq<string>, blob: Blob, depth: nat, t: Tally)
    requires depth <= DEPTH_LIMIT && t.Valid() && !t.over
    ensures var r, naive := Inside(path, blob, depth, t), NaiveInside(path, blob.kind);
            && (NoProblem(r.items) <==>
                  Readable(blob.kind, depth) && Fits(t, naive, 0) && DeclaredFits(path, blob.kind, t.expanded, t.cap))
            && (NoProblem(r.items) ==> Paid(t, naive, 0, r.tally))
    decreases DEPTH_LIMIT - depth, 1, blob, 0
  {
    OneProblem(path, NoReader);
    OneProblem(path, TooDeep);
    OneProblem(path, ArchiveBroken);
    OneProblem(path, TooMany);
    OneProblem(path + [""], TooMany);
    match blob.kind {
      case Archive(entries) =>
        if depth < DEPTH_LIMIT {
          var counted := t.Counted(Length(entries));
          if counted.members <= MEMBER_COUNT_LIMIT {
            MembersAreExact(path, entries, depth, counted);
          } else if ReadableAll(entries, depth) {
            EveryMemberCounts(path, entries, depth);
          }
        }
      case Stream(content, sound) =>
        if depth < DEPTH_LIMIT {
          var counted := t.Counted(1);
          var p := path + [""];
          OneFound(p, content);
          Sums([Found(p, content)], NaiveInside(p, content.kind));
          if counted.members <= MEMBER_COUNT_LIMIT {
            AdmittedWhole(content, sound, counted);
            AdmissionIsExact(p, content, sound, Content(content, sound, counted), counted, depth);
          }
        }
      case _ =>
    }
  }

  /** There is no problem exactly when nothing inside is broken, encrypted, unknown, too large
      or nested too deep, all of it together is within the cap and the count, and every size a
      zip declares, even a wrong one, is within the cap when its turn comes. */
  lemma NoProblemExactly(path: seq<string>, blob: Blob)
    ensures var t := Fresh(blob.size);
            var inside := NaiveInside(path, blob.kind);
            NoProblem(Expand(path, blob, 0, t).items) <==>
            Readable(blob.kind, 0) && Bytes(inside) <= t.cap && Count(inside) <= MEMBER_COUNT_LIMIT
            && DeclaredFits(path, blob.kind, 0, t.cap)
  {
    var t := Fresh(blob.size);
    OneFound(path, blob);
    NoProblemSplits([Found(path, blob)], Inside(path, blob, 0, t).items);
    hide Readable, NaiveInside, Inside, NoProblem, DeclaredFits;
    InsideIsExact(path, blob, 0, t);
  }
}
