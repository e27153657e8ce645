/**
The expansion as it runs: one mutable budget shared by the recursive readers.
*/
module ContainerReader {
  import opened Options
  import opened Containers
  import opened ContainerDefects

  class Budget {
    const cap: nat
    var expanded: nat
    var members: nat
    var over: bool

    ghost function State(): Tally
      reads this
    {
      Tally(cap, expanded, members, over)
    }

    constructor (size: nat)
      ensures State() == Fresh(size)
    {
      var ratio := RATIO_LIMIT * size;
      var lenient := if RATIO_FLOOR >= ratio then RATIO_FLOOR else ratio;
      cap := if EXPANSION_LIMIT <= lenient then EXPANSION_LIMIT else lenient;
      expanded, members, over := 0, 0, false;
    }

    /** The most bytes the next member may have. */
    function Room(): (n: nat)
      reads this
      ensures n == State().Room()
    {
      if cap <= expanded then 0 else if MEMBER_LIMIT <= cap - expanded then MEMBER_LIMIT else cap - expanded
    }

    /** Why a member of this size is not read; a blob-wide limit is remembered. */
    method Refuses(size: nat) returns (why: Option<Why>)
      modifies this
      ensures why == old(State()).Refusal(size) && State() == old(State()).Asked(size)
    {
      if size > MEMBER_LIMIT {
        return Some(MemberTooLarge);
      }
      if expanded + size > EXPANSION_LIMIT {
        over := true;
        return Some(TooMuch);
      }
      if expanded + size > cap {
        over := true;
        return Some(TooManyTimes);
      }
      return None;
    }

    method Spend(size: nat)
      modifies this
      ensures State() == old(State()).Spent(size)
    {
      expanded := expanded + size;
    }

    /** Counts a container's members; whether there are now too many. */
    method CountMembers(n: nat) returns (many: bool)
      modifies this
      ensures State() == old(State()).Counted(n) && many == (State().members > MEMBER_COUNT_LIMIT)
    {
      members := members + n;
      if members > MEMBER_COUNT_LIMIT {
        over := true;
        return true;
      }
      return false;
    }
  }

  /** A member read by its own bytes, one byte past the room, then measured. */
  method ReadContent(content: Blob, sound: bool, budget: Budget) returns (a: Admission)
    modifies budget
    ensures Admitted(a, budget.State()) == Content(content, sound, old(budget.State()))
  {
    var n := Read(content, sound, budget.Room() + 1);
    if n.None? {
      return Refuse(MemberBroken);
    }
    var problem := budget.Refuses(n.value);
    if problem.Some? {
      return Refuse(problem.value);
    }
    budget.Spend(n.value);
    return Admit(content);
  }

  /** One entry of a zip or a tar. */
  method ReadEntry(e: Entry, budget: Budget) returns (a: Admission)
    modifies budget
    ensures Admitted(a, budget.State()) == Consider(e, old(budget.State()))
  {
    match e {
      case Empty(_) => return Admit(NOTHING);
      case Locked(_) => return Refuse(Encrypted);
      case Packed(_, declared, content, sound) =>
        var problem := budget.Refuses(declared);
        if problem.Some? {
          return Refuse(problem.value);
        }
        a := ReadContent(content, sound, budget);
      case Filed(_, declared, content, readable) =>
        var problem := budget.Refuses(declared);
        if problem.Some? {
          return Refuse(problem.value);
        }
        if !readable || content.size != declared {
          return Refuse(MemberBroken);
        }
        budget.Spend(content.size);
        return Admit(content);
    }
  }

  /** One member: expanded in turn, or a problem. */
  method ExpandOne(path: seq<string>, a: Admission, depth: nat, budget: Budget) returns (out: seq<Item>)
    requires depth < DEPTH_LIMIT
    modifies budget
    ensures Expansion(out, budget.State()) == One(path, Admitted(a, old(budget.State())), depth)
    decreases DEPTH_LIMIT - depth - 1, 3, 0
  {
    match a {
      case Admit(blob) => out := ExpandPart(path, blob, depth + 1, budget);
      case Refuse(why) => out := [Problem(path, why)];
    }
  }

  /** The members of an archive, until the budget is over. */
  method ReadMembers(path: seq<string>, entries: Listing, depth: nat, budget: Budget) returns (out: seq<Item>)
    requires depth < DEPTH_LIMIT
    modifies budget
    ensures Expansion(out, budget.State()) == Members(path, entries, depth, old(budget.State()))
    decreases DEPTH_LIMIT - depth, 0, 0
  {
    hide One, Consider, Members;
    ghost var whole := Members(path, entries, depth, budget.State());
    out := [];
    var rest := entries;
    assert [] + whole.items == whole.items;
    while rest.Cons? && !budget.over
      invariant whole == Onto(out, Members(path, rest, depth, budget.State()))
      decreases rest
    {
      OneMoreMember(path, rest, depth, budget.State(), out);
      var a := ReadEntry(rest.head, budget);
      var items := ExpandOne(path + [rest.head.name], a, depth, budget);
      out := out + items;
      rest := rest.tail;
    }
    NoMoreMembers(path, rest, depth, budget.State(), out);
  }

  ghost function Onto(out: seq<Item>, r: Expansion): Expansion {
    Expansion(out + r.items, r.tally)
  }

  lemma OneMoreMember(path: seq<string>, list: Listing, depth: nat, t: Tally, out: seq<Item>)
    requires depth < DEPTH_LIMIT && list.Cons? && !t.over
    ensures var first := One(path + [list.head.name], Consider(list.head, t), depth);
            Onto(out, Members(path, list, depth, t)) ==
                Onto(out + first.items, Members(path, list.tail, depth, first.tally))
  {
    hide One, Consider;
    var first := One(path + [list.head.name], Consider(list.head, t), depth);
    var rest := Members(path, list.tail, depth, first.tally);
    assert out + (first.items + rest.items) == out + first.items + rest.items;
  }

  lemma NoMoreMembers(path: seq<string>, list: Listing, depth: nat, t: Tally, out: seq<Item>)
    requires depth < DEPTH_LIMIT && (list.Nil? || t.over)
    ensures Onto(out, Members(path, list, depth, t)) == Expansion(out, t)
  {
  }

  /** A part itself, then what it holds. */
  method ExpandPart(path: seq<string>, blob: Blob, depth: nat, budget: Budget) returns (out: seq<Item>)
    requires depth <= DEPTH_LIMIT
    modifies budget
    ensures Expansion(out, budget.State()) == Expand(path, blob, depth, old(budget.State()))
    decreases DEPTH_LIMIT - depth, 2, 0
  {
    hide Members, One, Content;
    out := [Found(path, blob)];
    if blob.kind.Plain? || budget.over {
      return;
    }
    if blob.kind.Unreadable? {
      return out + [Problem(path, NoReader)];
    }
    if depth == DEPTH_LIMIT {
      return out + [Problem(path, TooDeep)];
    }
    match blob.kind {
      case BrokenArchive => return out + [Problem(path, ArchiveBroken)];
      case Archive(entries) =>
        var many := budget.CountMembers(Length(entries));
        if many {
          return out + [Problem(path, TooMany)];
        }
        var items := ReadMembers(path, entries, depth, budget);
        return out + items;
      case Stream(content, sound) =>
        var many := budget.CountMembers(1);
        if many {
          return out + [Problem(path + [""], TooMany)];
        }
        var a := ReadContent(content, sound, budget);
        var items := ExpandOne(path + [""], a, depth, budget);
        return out + items;
    }
  }

  /** A blob and everything in it, under its own budget. */
  method ExpandBlob(path: seq<string>, blob: Blob) returns (out: seq<Item>)
    ensures out == Expand(path, blob, 0, Fresh(blob.size)).items
    ensures out[0] == Found(path, blob) && Bytes(out[1..]) <= 0x800_0000 && Count(out[1..]) <= 10000
    ensures NoProblem(out) ==> out == Naive(path, blob)
    ensures out == Plainly(path, blob, 0)
            || (var n := |out| - 1; out[n].Problem? && BlobWide(out[n].why) && out[..n] <= Plainly(path, blob, 0))
  {
    var budget := new Budget(blob.size);
    out := ExpandPart(path, blob, 0, budget);
    hide Expand, Naive, NoProblem, Bytes, Count, Plainly;
    ExpansionIsBounded(path, blob);
    ExpansionIsPlain(path, blob);
    if NoProblem(out) {
      NothingIsSkipped(path, blob);
    }
  }
}
