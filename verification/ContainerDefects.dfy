/**
What is inside a blob, each member by its own defects and without any budget, and the proof
that the budgeted expansion yields exactly that, up to the place where a limit of the whole
blob ends it. One member that cannot be read takes none of its neighbours with it.
*/
module ContainerDefects {
  import opened Containers

  /** A member's content is larger than any member may be. */
  predicate TooLarge(size: nat) {
    size > 0x200_0000
  }

  /** A part, then what its container holds, or why that cannot be read. */
  function Plainly(path: seq<string>, blob: Blob, depth: nat): seq<Item>
    decreases blob, 1
  {
    [Found(path, blob)] + PlainlyInside(path, blob.kind, depth)
  }

  function PlainlyInside(path: seq<string>, kind: Kind, depth: nat): seq<Item>
    decreases kind, 0
  {
    match kind
    case Plain => []
    case Unreadable => [Problem(path, NoReader)]
    case BrokenArchive => [Problem(path, if depth >= 4 then TooDeep else ArchiveBroken)]
    case Archive(entries) => if depth >= 4 then [Problem(path, TooDeep)] else PlainlyMembers(path, entries, depth)
    case Stream(content, sound) =>
      if depth >= 4 then [Problem(path, TooDeep)]
      else if TooLarge(content.size) then [Problem(path + [""], MemberTooLarge)]
      else if !sound then [Problem(path + [""], MemberBroken)]
      else Plainly(path + [""], content, depth + 1)
  }

  /** Every member by itself. */
  function PlainlyMembers(path: seq<string>, list: Listing, depth: nat): seq<Item>
    decreases list, 0
  {
    match list
    case Nil => []
    case Cons(e, rest) => PlainlyEntry(path + [e.name], e, depth) + PlainlyMembers(path, rest, depth)
  }

  function PlainlyEntry(path: seq<string>, e: Entry, depth: nat): seq<Item>
    decreases e, 0
  {
    match e
    case Empty(_) => [Found(path, Blob(0, Plain))]
    case Locked(_) => [Problem(path, Encrypted)]
    case Packed(_, declared, content, sound) =>
      if TooLarge(declared) || TooLarge(content.size) then [Problem(path, MemberTooLarge)]
      else if !sound then [Problem(path, MemberBroken)]
      else Plainly(path, content, depth + 1)
    case Filed(_, declared, content, readable) =>
      if TooLarge(declared) then [Problem(path, MemberTooLarge)]
      else if !readable || content.size != declared then [Problem(path, MemberBroken)]
      else Plainly(path, content, depth + 1)
  }

  /** All of `all`; or, when the budget is over, its beginning and then the limit that ended it. */
  ghost predicate Follows(r: Expansion, all: seq<Item>) {
    if !r.tally.over then r.items == all
    else
      var n := |r.items| - 1;
      n >= 0 && r.items[n].Problem? && BlobWide(r.items[n].why) && r.items[..n] <= all
  }

  lemma FollowsOn(first: Expansion, all: seq<Item>, rest: Expansion, more: seq<Item>)
    requires Follows(first, all)
    requires if first.tally.over then rest.items == [] && rest.tally.over else Follows(rest, more)
    ensures Follows(Expansion(first.items + rest.items, rest.tally), all + more)
  {
    var items := first.items + rest.items;
    if first.tally.over {
      assert items == first.items;
    } else if rest.tally.over {
      var n := |rest.items| - 1;
      assert items[..|items| - 1] == first.items + rest.items[..n];
    }
  }

  /** A tally the expansion can be in. */
  ghost predicate Running(t: Tally) {
    t.Valid() && !t.over
  }

  /** What a bounded read makes of a member: its own defect, the budget's limit, or its content. */
  lemma ContentJudged(content: Blob, sound: bool, t: Tally)
    requires Running(t)
    ensures var a := Content(content, sound, t);
            && (a.admission.Refuse? && BlobWide(a.admission.why) <==> a.tally.over)
            && (!a.tally.over ==>
                  if TooLarge(content.size) then a.admission == Refuse(MemberTooLarge)
                  else if !sound then a.admission == Refuse(MemberBroken)
                  else a.admission == Admit(content))
            && (!a.tally.over ==> Running(a.tally))
  {
  }

  lemma ConsiderJudged(e: Entry, t: Tally)
    requires Running(t)
    ensures var a := Consider(e, t);
            && (a.admission.Refuse? && BlobWide(a.admission.why) <==> a.tally.over)
            && (!a.tally.over ==> Running(a.tally))
            && (!a.tally.over ==>
                  match e
                  case Empty(_) => a.admission == Admit(Blob(0, Plain))
                  case Locked(_) => a.admission == Refuse(Encrypted)
                  case Packed(_, declared, content, sound) =>
                    a.admission == (if TooLarge(declared) || TooLarge(content.size) then Refuse(MemberTooLarge)
                                    else if !sound then Refuse(MemberBroken) else Admit(content))
                  case Filed(_, declared, content, readable) =>
                    a.admission == (if TooLarge(declared) then Refuse(MemberTooLarge)
                                    else if !readable || content.size != declared then Refuse(MemberBroken)
                                    else Admit(content)))
  {
    if e.Packed? {
      ContentJudged(e.content, e.sound, t);
      hide Content;
    }
  }

  /** One admitted or refused member. */
  lemma {:induction false} OneFollows(path: seq<string>, a: Admitted, depth: nat)
    requires depth < DEPTH_LIMIT && (a.admission.Refuse? && BlobWide(a.admission.why) <==> a.tally.over)
    requires !a.tally.over ==> Running(a.tally)
    ensures var r := One(path, a, depth);
            && Follows(r, if a.admission.Admit? then Plainly(path, a.admission.blob, depth + 1)
                          else [Problem(path, a.admission.why)])
            && (!r.tally.over ==> Running(r.tally))
    decreases DEPTH_LIMIT - depth - 1, 3, 0
  {
    if a.admission.Admit? {
      var blob := a.admission.blob;
      InsideFollows(path, blob, depth + 1, a.tally);
      hide Inside, PlainlyInside;
      FollowsOn(Expansion([Found(path, blob)], a.tally), [Found(path, blob)], Inside(path, blob, depth + 1, a.tally),
                PlainlyInside(path, blob.kind, depth + 1));
    }
  }

  lemma {:induction false} InsideFollows(path: seq<string>, blob: Blob, depth: nat, t: Tally)
    requires depth <= DEPTH_LIMIT && Running(t)
    ensures var r := Inside(path, blob, depth, t);
            Follows(r, PlainlyInside(path, blob.kind, depth)) && (!r.tally.over ==> Running(r.tally))
    decreases DEPTH_LIMIT - depth, 1, 0
  {
    if depth < DEPTH_LIMIT {
      match blob.kind {
        case Archive(entries) =>
          var counted := t.Counted(Length(entries));
          if counted.members <= MEMBER_COUNT_LIMIT {
            MembersFollow(path, entries, depth, counted);
          }
        case Stream(content, sound) =>
          var counted := t.Counted(1);
          if counted.members <= MEMBER_COUNT_LIMIT {
            ContentJudged(content, sound, counted);
            OneFollows(path + [""], Content(content, sound, counted), depth);
          }
        case _ =>
      }
      hide Members, One, Content, Plainly, PlainlyMembers;
    }
  }

  lemma {:induction false} MembersFollow(path: seq<string>, list: Listing, depth: nat, t: Tally)
    requires depth < DEPTH_LIMIT && Running(t)
    ensures var r := Members(path, list, depth, t);
            Follows(r, PlainlyMembers(path, list, depth)) && (!r.tally.over ==> Running(r.tally))
    decreases DEPTH_LIMIT - depth, 0, list
  {
    if list.Cons? {
      var here := path + [list.head.name];
      EntryFollows(here, list.head, t, depth);
      hide Consider, One, PlainlyEntry, Follows;
      var first := One(here, Consider(list.head, t), depth);
      if !first.tally.over {
        MembersFollow(path, list.tail, depth, first.tally);
      }
      FollowsOn(first, PlainlyEntry(here, list.head, depth), Members(path, list.tail, depth, first.tally),
                PlainlyMembers(path, list.tail, depth));
    }
  }

  lemma {:induction false} EntryFollows(path: seq<string>, e: Entry, t: Tally, depth: nat)
    requires depth < DEPTH_LIMIT && Running(t)
    ensures var r := One(path, Consider(e, t), depth);
            Follows(r, PlainlyEntry(path, e, depth)) && (!r.tally.over ==> Running(r.tally))
    decreases DEPTH_LIMIT - depth - 1, 4, 0
  {
    var a := Consider(e, t);
    ConsiderJudged(e, t);
    hide Consider, Plainly;
    OneFollows(path, a, depth);
    if e.Empty? {
      NothingInside(path, depth);
    }
  }

  lemma NothingInside(path: seq<string>, depth: nat)
    ensures Plainly(path, Blob(0, Plain), depth + 1) == [Found(path, Blob(0, Plain))]
  {
  }

  /** The expansion of any blob: without a limit of the whole blob, every member at every depth
      is yielded or has its own defect reported, and nothing else is; with one, everything
      before the place where it struck. */
  lemma ExpansionIsPlain(path: seq<string>, blob: Blob)
    ensures Follows(Expand(path, blob, 0, Fresh(blob.size)), Plainly(path, blob, 0))
  {
    var t := Fresh(blob.size);
    InsideFollows(path, blob, 0, t);
    hide Inside, PlainlyInside;
    FollowsOn(Expansion([Found(path, blob)], t), [Found(path, blob)], Inside(path, blob, 0, t),
              PlainlyInside(path, blob.kind, 0));
  }
}
