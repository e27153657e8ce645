/**
Receiving a band archive: old stagings and unsent items aside, everything staged, then each
target swapped in. Whatever fails and wherever, nothing that was on the box is lost.
*/
module BandReceive {
  import opened Options
  import opened BandNames
  import opened BandDisk
  import opened BandPlaces

  datatype Member = Member(name: string, data: Bytes)

  /** Done: where old entries were moved to, in order, and each member as read back from its
      place. */
  datatype Outcome = Refused | Failed | Done(kept: seq<Loc>, written: map<string, Bytes>)

  predicate IsFolder(t: Target) {
    t.Engine? || t.item in SERVER_FOLDERS
  }

  predicate Replaces(m: Member, t: Target) {
    ItemOf(m.name) == Some(t)
  }

  /** The tree holds exactly the members for its target. */
  ghost predicate Holds(tree: Tree, members: seq<Member>, t: Target) {
    if IsFolder(t) then
      && tree.Folder?
      && (forall k :: 0 <= k < |members| && Replaces(members[k], t) ==>
            Inner(members[k].name) in tree.files && tree.files[Inner(members[k].name)] == members[k].data)
      && (forall p :: p in tree.files ==>
            exists k :: 0 <= k < |members| && Replaces(members[k], t) && Inner(members[k].name) == p)
    else
      && (exists k :: 0 <= k < |members| && Replaces(members[k], t))
      && (forall k :: 0 <= k < |members| && Replaces(members[k], t) ==> tree == File(members[k].data))
  }

  /** An old entry stays where it was unless it stood at a band place or a staging place; a
      moved one lies in the same folder, at no band place. */
  ghost predicate Undisturbed(start: map<Loc, Tree>, moved: map<Loc, Loc>, engine: string, staged: set<Loc>) {
    && moved.Keys == start.Keys
    && (forall l :: l in start ==> moved[l] == l || (!IsBand(moved[l], engine) && moved[l].area == l.area))
    && (forall l :: l in start && !IsBand(l, engine) && l !in staged ==> moved[l] == l)
  }

  lemma MoveLeavesUndisturbed(start: map<Loc, Tree>, moved: map<Loc, Loc>, engine: string, staged: set<Loc>, from: Loc,
                              to: Loc)
    requires Undisturbed(start, moved, engine, staged) && (IsBand(from, engine) || from in staged)
    requires !IsBand(to, engine) && to.area == from.area
    ensures Undisturbed(start, Relocated(moved, from, to), engine, staged)
  {
    hide IsBand;
  }

  lemma OursLeavesUndisturbed(start: map<Loc, Tree>, moved: map<Loc, Loc>, from: Loc, to: Loc)
    requires from !in moved.Values
    ensures Relocated(moved, from, to) == moved
  {
    var m := Relocated(moved, from, to);
    forall l | l in moved ensures m[l] == moved[l] {
      assert moved[l] in moved.Values;
    }
  }

  /** The targets' places and staging places. */
  ghost function Places(targets: seq<Target>, engine: string): set<Loc> {
    set i | 0 <= i < |targets| :: LocOf(targets[i], engine)
  }

  ghost function Stagings(targets: seq<Target>, engine: string): set<Loc> {
    set i | 0 <= i < |targets| :: Staging(LocOf(targets[i], engine))
  }

  ghost predicate Proper(targets: seq<Target>) {
    && (forall i :: 0 <= i < |targets| ==> IsTarget(targets[i]))
    && (forall i, j :: 0 <= i < j < |targets| ==> targets[i] != targets[j])
  }

  /** One old entry to a free name beside it. */
  method MoveAside(disk: Disk, from: Loc, stamp: string, hidden: bool, engine: string, ghost staged: set<Loc>)
      returns (ok: bool, a: Loc)
    requires disk.Kept() && Undisturbed(disk.start, disk.moved, engine, staged)
    requires from in disk.fs && from !in disk.ours && (IsBand(from, engine) || from in staged)
    requires hidden || from.area == Parent || (from.name != "" && from.name[0] == '.')
    requires from.area == Parent ==> |from.name| >= |engine|
    modifies disk
    ensures disk.Kept() && Undisturbed(disk.start, disk.moved, engine, staged)
    ensures disk.start == old(disk.start) && disk.ours == old(disk.ours)
    ensures !ok ==> disk.fs == old(disk.fs)
    ensures ok ==> disk.asides == old(disk.asides) + [a]
    ensures disk.blocked == old(disk.blocked) && a.area == from.area && Begins(a.name, AsideBase(from, stamp, hidden))
    ensures ok ==> a !in old(disk.fs) && !IsBand(a, engine)
    ensures ok ==> disk.fs == (old(disk.fs) - {from})[a := old(disk.fs)[from]]
    ensures disk.failed == (old(disk.failed) || !ok)
  {
    hide IsBand, Undisturbed, Relocated;
    a := Aside(disk.fs, from, stamp, hidden);
    AsideBegins(disk.fs, from, stamp, hidden, a);
    assert Beside(a, engine);
    BesideIsNotBand(a, engine);
    MoveLeavesUndisturbed(disk.start, disk.moved, engine, staged, from, a);
    ok := disk.Rename(from, a);
  }

  lemma AsideBegins(fs: map<Loc, Tree>, l: Loc, stamp: string, hidden: bool, a: Loc)
    requires exists n: nat :: FirstFree(fs, l.area, AsideBase(l, stamp, hidden), n)
                              && a == Loc(l.area, Numbered(AsideBase(l, stamp, hidden), n))
    ensures a.area == l.area && Begins(a.name, AsideBase(l, stamp, hidden))
  {
    hide FirstFree;
  }

  /** Nothing of ours or of an earlier run stands where these targets are staged. */
  ghost predicate Free(fs: map<Loc, Tree>, targets: seq<Target>, engine: string) {
    forall i :: 0 <= i < |targets| ==> Staging(LocOf(targets[i], engine)) !in fs
  }

  /** A name an item or its staging moves to is no staging name: not of an item, and not of the
      engine's folder, which is elsewhere. */
  lemma AsideStaysClear(item: string, from: Loc, stamp: string, hidden: bool, a: Loc, t: Target, engine: string)
    requires IsItem(item) && IsTarget(t) && a.area == from.area && Begins(a.name, AsideBase(from, stamp, hidden))
    requires from == if hidden then LocOf(Item(item), engine) else Staging(LocOf(Item(item), engine))
    ensures a != Staging(LocOf(t, engine))
  {
    ItemsStartPlain(item);
    var x := LocOf(Item(item), engine).name;
    NamesAreDotted(item);
    BaseBegins(x, stamp, hidden, a.name);
    if t.Item? {
      ItemsStartPlain(t.item);
      NamesAreDotted(t.item);
      AsideIsNoStaging(x, LocOf(t, engine).name, a.name, hidden);
    }
  }

  lemma BaseBegins(x: string, stamp: string, hidden: bool, name: string)
    requires Begins(name, if hidden then "." + x + ".before-" + stamp
                          else "" + ("." + x + ".incoming") + ".before-" + stamp)
    ensures Begins(name, "." + x + if hidden then ".before-" else ".incoming.before-")
  {
    var rest := if hidden then ".before-" else ".incoming.before-";
    var base := "." + x + rest;
    var all := if hidden then "." + x + ".before-" + stamp else "" + ("." + x + ".incoming") + ".before-" + stamp;
    assert all == base + stamp;
    assert name[..|base|] == name[..|all|][..|base|] == base;
  }

  /** The engine's staging moves beside its folder, longer than its staging's name. */
  lemma EngineStaysClear(from: Loc, stamp: string, a: Loc, t: Target, engine: string)
    requires IsTarget(t) && from == Staging(LocOf(Engine, engine)) && a.area == from.area
    requires Begins(a.name, AsideBase(from, stamp, false))
    ensures a != Staging(LocOf(t, engine))
  {
    if t.Item? {
      ItemsStartPlain(t.item);
    }
  }

  /** Stagings an earlier run left go aside. */
  method StashStale(disk: Disk, targets: seq<Target>, engine: string, stamp: string) returns (ok: bool, kept: seq<Loc>)
    requires disk.Kept() && disk.ours == {} && Proper(targets)
    requires Undisturbed(disk.start, disk.moved, engine, Stagings(targets, engine))
    modifies disk
    ensures disk.Kept() && Undisturbed(disk.start, disk.moved, engine, Stagings(targets, engine))
    ensures disk.start == old(disk.start) && disk.ours == {}
    ensures ok ==> disk.asides == old(disk.asides) + kept
    ensures disk.blocked == old(disk.blocked) && (ok ==> Free(disk.fs, targets, engine))
    ensures disk.failed == (old(disk.failed) || !ok)
  {
    hide IsBand, Undisturbed, LocOf, Staging, Beside, Disk.Kept, Begins;
    kept := [];
    for i := 0 to |targets|
      invariant disk.failed == old(disk.failed) && disk.asides == old(disk.asides) + kept
      invariant disk.Kept() && Undisturbed(disk.start, disk.moved, engine, Stagings(targets, engine))
      invariant disk.start == old(disk.start) && disk.ours == {} && disk.blocked == old(disk.blocked)
      invariant Free(disk.fs, targets[..i], engine)
    {
      var from := Staging(LocOf(targets[i], engine));
      if from in disk.fs {
        StagingIsLong(targets[i], engine);
        var a;
        ok, a := MoveAside(disk, from, stamp, false, engine, Stagings(targets, engine));
        if !ok {
          return;
        }
        kept := kept + [a];
        forall k | 0 <= k < i ensures Staging(LocOf(targets[k], engine)) != a {
          if targets[i] == Engine {
            EngineStaysClear(from, stamp, a, targets[k], engine);
          } else {
            AsideStaysClear(targets[i].item, from, stamp, false, a, targets[k], engine);
          }
        }
      }
    }
    ok := true;
  }

  lemma StagingIsLong(t: Target, engine: string)
    requires IsTarget(t)
    ensures var s := Staging(LocOf(t, engine));
            (s.area == Parent ==> |s.name| >= |engine|) && s.name != "" && s.name[0] == '.'
  {
    if t.Item? {
      ItemsStartPlain(t.item);
    }
  }

  /** Band items the sender no longer has go aside. */
  method StashUnsent(disk: Disk, items: seq<string>, sent: set<string>, engine: string, stamp: string,
                     ghost staged: set<Loc>, ghost targets: seq<Target>)
      returns (ok: bool, kept: seq<Loc>)
    requires disk.Kept() && disk.ours == {} && (forall i :: 0 <= i < |items| ==> IsItem(items[i]))
    requires Undisturbed(disk.start, disk.moved, engine, staged) && Proper(targets) && Free(disk.fs, targets, engine)
    modifies disk
    ensures disk.Kept() && Undisturbed(disk.start, disk.moved, engine, staged)
    ensures disk.start == old(disk.start) && disk.ours == {}
    ensures ok ==> forall i :: 0 <= i < |items| && items[i] !in sent ==> LocOf(Item(items[i]), engine) !in disk.fs
    ensures ok ==> disk.asides == old(disk.asides) + kept
    ensures disk.blocked == old(disk.blocked) && (ok ==> Free(disk.fs, targets, engine))
    ensures disk.failed == (old(disk.failed) || !ok)
  {
    hide IsBand, Undisturbed, LocOf, Staging, Disk.Kept, Begins;
    kept := [];
    for i := 0 to |items|
      invariant disk.failed == old(disk.failed) && disk.asides == old(disk.asides) + kept
      invariant disk.Kept() && Undisturbed(disk.start, disk.moved, engine, staged)
      invariant disk.start == old(disk.start) && disk.ours == {} && disk.blocked == old(disk.blocked)
      invariant Free(disk.fs, targets, engine)
      invariant forall k :: 0 <= k < i && items[k] !in sent ==> LocOf(Item(items[k]), engine) !in disk.fs
    {
      var from := LocOf(Item(items[i]), engine);
      if items[i] !in sent && from in disk.fs {
        ItemIsBand(items[i], engine);
        var a;
        ok, a := MoveAside(disk, from, stamp, true, engine, staged);
        if !ok {
          return;
        }
        forall k | 0 <= k < i && items[k] !in sent ensures LocOf(Item(items[k]), engine) != a {
          ItemIsBand(items[k], engine);
        }
        forall k | 0 <= k < |targets| ensures Staging(LocOf(targets[k], engine)) != a {
          AsideStaysClear(items[i], from, stamp, true, a, targets[k], engine);
        }
        kept := kept + [a];
      }
    }
    ok := true;
  }

  lemma ItemIsBand(item: string, engine: string)
    requires IsItem(item)
    ensures IsBand(LocOf(Item(item), engine), engine) && LocOf(Item(item), engine).area != Parent
  {
    ItemsStartPlain(item);
    assert IsTarget(Item(item));
  }

  // ----- staging

  /** What is staged for a target once the first members are written. */
  ghost predicate Staged(fs: map<Loc, Tree>, ours: set<Loc>, members: seq<Member>, t: Target, engine: string) {
    var s := Staging(LocOf(t, engine));
    && (s in ours ==> s in fs && Holds(fs[s], members, t))
    && (s in ours <==> IsFolder(t) || exists k :: 0 <= k < |members| && Replaces(members[k], t))
  }

  ghost predicate AllStaged(fs: map<Loc, Tree>, ours: set<Loc>, members: seq<Member>, targets: seq<Target>,
                            engine: string) {
    && ours <= Stagings(targets, engine)
    && forall i :: 0 <= i < |targets| ==> Staged(fs, ours, members, targets[i], engine)
  }

  lemma {:induction false} HoldsNothing(t: Target)
    requires IsFolder(t)
    ensures Holds(Folder(map[]), [], t)
  {
  }

  lemma ReplacesSplits(members: seq<Member>, m: Member, t: Target)
    ensures (exists k :: 0 <= k < |members + [m]| && Replaces((members + [m])[k], t)) <==>
            Replaces(m, t) || exists k :: 0 <= k < |members| && Replaces(members[k], t)
  {
    hide Replaces;
    var all := members + [m];
    assert all[|members|] == m;
    if k :| 0 <= k < |members| && Replaces(members[k], t) {
      assert Replaces(all[k], t);
    }
    if k :| 0 <= k < |all| && Replaces(all[k], t) {
      assert k < |members| ==> Replaces(members[k], t);
    }
  }

  lemma HoldsOthers(tree: Tree, members: seq<Member>, m: Member, t: Target)
    requires Holds(tree, members, t) && !Replaces(m, t)
    ensures Holds(tree, members + [m], t)
  {
    hide ItemOf, Inner;
    var all := members + [m];
    assert forall k :: 0 <= k < |members| ==> all[k] == members[k];
    assert all[|members|] == m;
    if IsFolder(t) {
      forall p | p in tree.files ensures exists k :: 0 <= k < |all| && Replaces(all[k], t) && Inner(all[k].name) == p {
        var k :| 0 <= k < |members| && Replaces(members[k], t) && Inner(members[k].name) == p;
        assert Replaces(all[k], t);
      }
    } else {
      ReplacesSplits(members, m, t);
    }
  }

  lemma HoldsMore(files: map<seq<string>, Bytes>, members: seq<Member>, m: Member, t: Target)
    requires IsFolder(t) && Holds(Folder(files), members, t) && Replaces(m, t) && Inner(m.name) !in files
    ensures Holds(Folder(files[Inner(m.name) := m.data]), members + [m], t)
  {
    hide ItemOf, Inner;
    var all, later := members + [m], files[Inner(m.name) := m.data];
    assert forall k :: 0 <= k < |members| ==> all[k] == members[k];
    assert all[|members|] == m;
    forall p | p in later ensures exists k :: 0 <= k < |all| && Replaces(all[k], t) && Inner(all[k].name) == p {
      if p in files {
        var k :| 0 <= k < |members| && Replaces(members[k], t) && Inner(members[k].name) == p;
        assert Replaces(all[k], t);
      } else {
        assert Replaces(all[|members|], t);
      }
    }
  }

  lemma HoldsFile(members: seq<Member>, m: Member, t: Target)
    requires !IsFolder(t) && Replaces(m, t) && forall k :: 0 <= k < |members| ==> !Replaces(members[k], t)
    ensures Holds(File(m.data), members + [m], t)
  {
    hide ItemOf;
    var all := members + [m];
    assert forall k :: 0 <= k < |members| ==> all[k] == members[k];
    assert all[|members|] == m && Replaces(all[|members|], t);
  }

  /** A write to one target's staging leaves the others as they were. */
  lemma StagedOthers(fs: map<Loc, Tree>, ours: set<Loc>, later: map<Loc, Tree>, mine: set<Loc>, members: seq<Member>,
                     m: Member, t: Target, engine: string)
    requires Staged(fs, ours, members, t, engine) && !Replaces(m, t)
    requires var s := Staging(LocOf(t, engine));
             (s in ours <==> s in mine) && (s in ours ==> s in later && later[s] == fs[s])
    ensures Staged(later, mine, members + [m], t, engine)
  {
    hide Replaces, LocOf, Staging;
    ReplacesSplits(members, m, t);
    if Staging(LocOf(t, engine)) in ours {
      HoldsOthers(fs[Staging(LocOf(t, engine))], members, m, t);
    }
    hide Holds;
  }

  lemma StagedFolder(fs: map<Loc, Tree>, ours: set<Loc>, members: seq<Member>, m: Member, t: Target, engine: string)
    requires Staged(fs, ours, members, t, engine) && Replaces(m, t) && IsFolder(t)
    requires var s := Staging(LocOf(t, engine)); s in fs && fs[s].Folder? && Inner(m.name) !in fs[s].files
    ensures var s := Staging(LocOf(t, engine));
            Staged(fs[s := Folder(fs[s].files[Inner(m.name) := m.data])], ours, members + [m], t, engine)
  {
    hide ItemOf, LocOf, Staging, Inner;
    var s := Staging(LocOf(t, engine));
    HoldsMore(fs[s].files, members, m, t);
    hide Holds;
  }

  lemma StagedFile(fs: map<Loc, Tree>, ours: set<Loc>, members: seq<Member>, m: Member, t: Target, engine: string)
    requires Staged(fs, ours, members, t, engine) && Replaces(m, t) && !IsFolder(t)
    requires Staging(LocOf(t, engine)) !in fs
    ensures var s := Staging(LocOf(t, engine));
            Staged(fs[s := File(m.data)], ours + {s}, members + [m], t, engine)
  {
    hide Replaces, LocOf, Staging;
    ReplacesSplits(members, m, t);
    HoldsFile(members, m, t);
    hide Holds;
  }

  /** Only what this run staged stands where these targets are staged. */
  ghost predicate OursOnly(fs: map<Loc, Tree>, ours: set<Loc>, targets: seq<Target>, engine: string) {
    forall i :: 0 <= i < |targets| ==>
      Staging(LocOf(targets[i], engine)) in fs ==> Staging(LocOf(targets[i], engine)) in ours
  }

  /** An empty folder staged for each target that is one. */
  method MakeFolders(disk: Disk, targets: seq<Target>, engine: string) returns (ok: bool)
    requires disk.Kept() && disk.ours == {} && Proper(targets) && Free(disk.fs, targets, engine)
    modifies disk`fs, disk`ours, disk`failed, disk`blocked
    ensures disk.blocked == old(disk.blocked) && (ok ==> OursOnly(disk.fs, disk.ours, targets, engine))
    ensures disk.Kept()
    ensures ok ==> AllStaged(disk.fs, disk.ours, [], targets, engine) && disk.fs.Keys == old(disk.fs).Keys + disk.ours
    ensures disk.failed == (old(disk.failed) || !ok)
  {
    hide LocOf, Staging, Disk.Kept, Holds;
    for i := 0 to |targets|
      invariant disk.failed == old(disk.failed)
      invariant disk.Kept() && disk.blocked == old(disk.blocked)
      invariant disk.ours <= Stagings(targets, engine) && disk.fs.Keys == old(disk.fs).Keys + disk.ours
      invariant forall k :: 0 <= k < i ==> Staged(disk.fs, disk.ours, [], targets[k], engine)
      invariant forall k :: i <= k < |targets| ==> Staging(LocOf(targets[k], engine)) !in disk.ours
    {
      if IsFolder(targets[i]) {
        var s := Staging(LocOf(targets[i], engine));
        ok := disk.MakeFolder(s);
        if !ok {
          return;
        }
        HoldsNothing(targets[i]);
        forall k | 0 <= k < |targets| && k != i ensures Staging(LocOf(targets[k], engine)) != s {
          TargetsApart(targets[k], targets[i], engine);
        }
      }
    }
    ok := true;
  }

  /** Where a member's target is among the targets. */
  ghost predicate Listed(members: seq<Member>, targets: seq<Target>) {
    forall k :: 0 <= k < |members| ==> HasTarget(members[k], targets)
  }

  ghost predicate HasTarget(m: Member, targets: seq<Target>) {
    exists i :: 0 <= i < |targets| && Replaces(m, targets[i])
  }

  /** One member into its target's staging. */
  method WriteMember(disk: Disk, ghost members: seq<Member>, m: Member, ghost targets: seq<Target>, engine: string)
      returns (ok: bool)
    requires disk.Kept() && Proper(targets) && AllStaged(disk.fs, disk.ours, members, targets, engine)
    requires HasTarget(m, targets) && OursOnly(disk.fs, disk.ours, targets, engine) && Another(members, m)
    modifies disk`fs, disk`ours, disk`failed, disk`blocked
    ensures disk.blocked == old(disk.blocked) && (ok ==> OursOnly(disk.fs, disk.ours, targets, engine))
    ensures disk.Kept()
    ensures ok ==> AllStaged(disk.fs, disk.ours, members + [m], targets, engine)
    ensures ok ==> disk.fs.Keys == old(disk.fs).Keys + disk.ours && old(disk.ours) <= disk.ours
    ensures disk.failed == (old(disk.failed) || !ok)
  {
    hide LocOf, Staging, Holds, ItemOf;
    ghost var i :| 0 <= i < |targets| && Replaces(m, targets[i]);
    ghost var fs, ours := disk.fs, disk.ours;
    var t := ItemOf(m.name).value;
    var s := Staging(LocOf(t, engine));
    assert Staged(fs, ours, members, t, engine);
    if IsFolder(t) {
      assert fs[s].Folder? by { HoldsIsFolder(fs[s], members, t); }
      ok := disk.WriteInside(s, Inner(m.name), m.data);
      if ok {
        StagedFolder(fs, ours, members, m, t, engine);
      }
    } else {
      assert s !in fs by { NotStagedYet(fs, ours, members, m, t, targets, engine, i); }
      ok := disk.WriteFile(s, m.data);
      if ok {
        StagedFile(fs, ours, members, m, t, engine);
      }
    }
    if ok {
      assert s in Stagings(targets, engine);
      forall k | 0 <= k < |targets| ensures Staged(disk.fs, disk.ours, members + [m], targets[k], engine) {
        if k != i {
          TargetsApart(targets[k], t, engine);
          StagedOthers(fs, ours, disk.fs, disk.ours, members, m, targets[k], engine);
        }
      }
    }
  }

  /** No member before it has its name. */
  ghost predicate Another(members: seq<Member>, m: Member) {
    forall k :: 0 <= k < |members| ==> members[k].name != m.name
  }

  /** A file's staging is free until its one member comes. */
  lemma NotStagedYet(fs: map<Loc, Tree>, ours: set<Loc>, members: seq<Member>, m: Member, t: Target,
                     targets: seq<Target>, engine: string, i: nat)
    requires i < |targets| && targets[i] == t && Replaces(m, t) && !IsFolder(t) && Another(members, m)
    requires Staged(fs, ours, members, t, engine) && OursOnly(fs, ours, targets, engine)
    ensures Staging(LocOf(t, engine)) !in fs
  {
    hide LocOf, Staging, Holds;
    forall k | 0 <= k < |members| ensures !Replaces(members[k], t) {
      if Replaces(members[k], t) {
        NamesStayApart(members[k].name, m.name);
      }
    }
  }

  lemma HoldsIsFolder(tree: Tree, members: seq<Member>, t: Target)
    requires IsFolder(t) && Holds(tree, members, t)
    ensures tree.Folder?
  {
  }

  method WriteAll(disk: Disk, members: seq<Member>, ghost targets: seq<Target>, engine: string) returns (ok: bool)
    requires disk.Kept() && Proper(targets) && AllStaged(disk.fs, disk.ours, [], targets, engine)
             && Listed(members, targets)
    requires OursOnly(disk.fs, disk.ours, targets, engine)
    requires forall k :: 0 <= k < |members| ==> Another(members[..k], members[k])
    modifies disk`fs, disk`ours, disk`failed, disk`blocked
    ensures disk.blocked == old(disk.blocked)
    ensures disk.Kept()
    ensures ok ==> AllStaged(disk.fs, disk.ours, members, targets, engine)
    ensures ok ==> disk.fs.Keys == old(disk.fs).Keys + disk.ours
    ensures disk.failed == (old(disk.failed) || !ok)
  {
    hide AllStaged, Disk.Kept, Replaces, OursOnly, Another;
    assert members[..0] == [];
    var k := 0;
    while k < |members|
      invariant 0 <= k <= |members|
      invariant disk.failed == old(disk.failed)
      invariant disk.Kept() && disk.blocked == old(disk.blocked) && OursOnly(disk.fs, disk.ours, targets, engine)
      invariant AllStaged(disk.fs, disk.ours, members[..k], targets, engine)
      invariant k == 0 ==> disk.fs == old(disk.fs) && disk.ours == old(disk.ours)
      invariant k > 0 ==> disk.fs.Keys == old(disk.fs).Keys + disk.ours
    {
      assert members[..k + 1] == members[..k] + [members[k]];
      ok := WriteMember(disk, members[..k], members[k], targets, engine);
      if !ok {
        return;
      }
      k := k + 1;
    }
    assert members[..k] == members;
    if k == 0 {
      OursExist(disk);
    }
    ok := true;
  }

  lemma OursExist(disk: Disk)
    requires disk.Kept()
    ensures disk.ours <= disk.fs.Keys
  {
  }

  // ----- swapping in

  /** A target's new version, staged or in its place. */
  ghost predicate At(fs: map<Loc, Tree>, ours: set<Loc>, l: Loc, members: seq<Member>, t: Target) {
    l in ours && l in fs && Holds(fs[l], members, t)
  }

  /** The first `n` targets are swapped in, the others staged, and nothing else is ours. */
  ghost predicate Swapped(fs: map<Loc, Tree>, ours: set<Loc>, members: seq<Member>, targets: seq<Target>,
                          engine: string, n: nat)
    requires n <= |targets|
  {
    && (forall i :: 0 <= i < n ==> At(fs, ours, LocOf(targets[i], engine), members, targets[i]))
    && (forall i :: n <= i < |targets| ==> At(fs, ours, Staging(LocOf(targets[i], engine)), members, targets[i]))
    && ours == Places(targets[..n], engine) + Stagings(targets[n..], engine)
  }

  lemma StagedIsUnswapped(fs: map<Loc, Tree>, ours: set<Loc>, members: seq<Member>, targets: seq<Target>,
                          engine: string)
    requires AllStaged(fs, ours, members, targets, engine)
    requires forall i :: 0 <= i < |targets| ==>
               IsFolder(targets[i]) || exists k :: 0 <= k < |members| && Replaces(members[k], targets[i])
    ensures Swapped(fs, ours, members, targets, engine, 0)
  {
    hide LocOf, Staging, Holds, Replaces;
    assert targets[0..] == targets && targets[..0] == [];
    forall i | 0 <= i < |targets| ensures At(fs, ours, Staging(LocOf(targets[i], engine)), members, targets[i]) {
      assert Staged(fs, ours, members, targets[i], engine);
    }
  }

  /** Ours lies apart from the next target's place. */
  lemma NextIsFree(fs: map<Loc, Tree>, ours: set<Loc>, members: seq<Member>, targets: seq<Target>, engine: string,
                   n: nat)
    requires n < |targets| && Proper(targets) && Swapped(fs, ours, members, targets, engine, n)
    ensures LocOf(targets[n], engine) !in ours && IsBand(LocOf(targets[n], engine), engine)
  {
    hide Holds, LocOf, Staging, IsBand;
    var l := LocOf(targets[n], engine);
    assert IsBand(l, engine) by { TargetIsBand(targets[n], engine); }
    if l in Places(targets[..n], engine) {
      var i :| 0 <= i < n && LocOf(targets[..n][i], engine) == l;
      TargetsApart(targets[i], targets[n], engine);
    }
    if l in Stagings(targets[n..], engine) {
      var i :| 0 <= i < |targets| - n && Staging(LocOf(targets[n..][i], engine)) == l;
      StagingIsBeside(targets[n + i], engine);
      BesideIsNotBand(l, engine);
    }
  }

  lemma TargetIsBand(t: Target, engine: string)
    requires IsTarget(t)
    ensures IsBand(LocOf(t, engine), engine)
  {
  }

  /** A move that touches nothing of ours. */
  lemma SwappedStays(fs: map<Loc, Tree>, later: map<Loc, Tree>, ours: set<Loc>, members: seq<Member>,
                     targets: seq<Target>, engine: string, n: nat)
    requires n <= |targets| && Swapped(fs, ours, members, targets, engine, n)
    requires forall l :: l in ours && l in fs ==> l in later && later[l] == fs[l]
    ensures Swapped(later, ours, members, targets, engine, n)
  {
    hide Holds, LocOf, Staging;
  }

  lemma OneMoreSwapped(fs: map<Loc, Tree>, ours: set<Loc>, members: seq<Member>, targets: seq<Target>, engine: string,
                       n: nat)
    requires n < |targets| && Proper(targets) && Swapped(fs, ours, members, targets, engine, n)
    requires LocOf(targets[n], engine) !in fs
    ensures var l := LocOf(targets[n], engine);
            var s := Staging(l);
            s in fs && s in ours && Swapped((fs - {s})[l := fs[s]], ours - {s} + {l}, members, targets, engine, n + 1)
  {
    hide Holds, LocOf, Staging;
    var l := LocOf(targets[n], engine);
    var s := Staging(l);
    var later, mine := (fs - {s})[l := fs[s]], ours - {s} + {l};
    forall i | 0 <= i < |targets| && i != n
      ensures LocOf(targets[i], engine) != l && Staging(LocOf(targets[i], engine)) != s
              && LocOf(targets[i], engine) != s
    {
      TargetsApart(targets[i], targets[n], engine);
      NotStaging(targets[i], targets[n], engine);
    }
    NotStaging(targets[n], targets[n], engine);
    assert At(fs, ours, s, members, targets[n]);
    SetsMove(targets, engine, n, ours);
    forall i | 0 <= i < n + 1 ensures At(later, mine, LocOf(targets[i], engine), members, targets[i]) {
      assert i < n ==> At(fs, ours, LocOf(targets[i], engine), members, targets[i]);
    }
    forall i | n + 1 <= i < |targets| ensures At(later, mine, Staging(LocOf(targets[i], engine)), members, targets[i]) {
      assert At(fs, ours, Staging(LocOf(targets[i], engine)), members, targets[i]);
    }
  }

  lemma NotStaging(t: Target, u: Target, engine: string)
    requires IsTarget(t) && IsTarget(u)
    ensures LocOf(t, engine) != Staging(LocOf(u, engine))
  {
    TargetIsBand(t, engine);
    StagingIsBeside(u, engine);
    BesideIsNotBand(Staging(LocOf(u, engine)), engine);
  }

  lemma SetsMove(targets: seq<Target>, engine: string, n: nat, ours: set<Loc>)
    requires n < |targets| && Proper(targets) && ours == Places(targets[..n], engine) + Stagings(targets[n..], engine)
    ensures var l := LocOf(targets[n], engine);
            var s := Staging(l);
            ours - {s} + {l} == Places(targets[..n + 1], engine) + Stagings(targets[n + 1..], engine)
  {
    var l := LocOf(targets[n], engine);
    var s := Staging(l);
    PlacesGrow(targets, engine, n);
    StagingsShrink(targets, engine, n);
    hide LocOf, Staging;
    forall i | 0 <= i < n ensures LocOf(targets[..n][i], engine) != s {
      NotStaging(targets[i], targets[n], engine);
    }
    var rest := targets[n + 1..];
    forall i | 0 <= i < |rest| ensures Staging(LocOf(rest[i], engine)) != s {
      TargetsApart(targets[n + 1 + i], targets[n], engine);
    }
  }

  lemma PlacesGrow(targets: seq<Target>, engine: string, n: nat)
    requires n < |targets|
    ensures Places(targets[..n + 1], engine) == Places(targets[..n], engine) + {LocOf(targets[n], engine)}
  {
    hide LocOf;
    var a, b := targets[..n], targets[..n + 1];
    forall l | l in Places(a, engine) ensures l in Places(b, engine) {
      var i :| 0 <= i < n && LocOf(a[i], engine) == l;
      assert b[i] == a[i];
    }
    assert b[n] == targets[n];
    forall l | l in Places(b, engine) ensures l in Places(a, engine) + {LocOf(targets[n], engine)} {
      var i :| 0 <= i < n + 1 && LocOf(b[i], engine) == l;
      assert i < n ==> a[i] == b[i];
    }
  }

  lemma StagingsShrink(targets: seq<Target>, engine: string, n: nat)
    requires n < |targets|
    ensures Stagings(targets[n..], engine) == Stagings(targets[n + 1..], engine) + {Staging(LocOf(targets[n], engine))}
  {
    hide LocOf, Staging;
    var a, b := targets[n + 1..], targets[n..];
    forall l | l in Stagings(a, engine) ensures l in Stagings(b, engine) {
      var i :| 0 <= i < |a| && Staging(LocOf(a[i], engine)) == l;
      assert b[i + 1] == a[i];
    }
    assert b[0] == targets[n];
    forall l | l in Stagings(b, engine) ensures l in Stagings(a, engine) + {Staging(LocOf(targets[n], engine))} {
      var i :| 0 <= i < |b| && Staging(LocOf(b[i], engine)) == l;
      assert i > 0 ==> a[i - 1] == b[i];
    }
  }

  /** No band item but the targets is in its place. */
  ghost predicate Absent(fs: map<Loc, Tree>, targets: seq<Target>, engine: string) {
    forall item: string :: IsItem(item) && Item(item) !in targets ==> LocOf(Item(item), engine) !in fs
  }

  lemma AbsentStays(fs: map<Loc, Tree>, later: map<Loc, Tree>, targets: seq<Target>, engine: string, more: set<Loc>)
    requires Absent(fs, targets, engine) && Proper(targets) && later.Keys <= fs.Keys + more
    requires forall l :: l in more ==>
               !IsBand(l, engine) || exists i :: 0 <= i < |targets| && l == LocOf(targets[i], engine)
    ensures Absent(later, targets, engine)
  {
    hide LocOf, IsBand;
    forall item: string | IsItem(item) && Item(item) !in targets ensures LocOf(Item(item), engine) !in later {
      var l := LocOf(Item(item), engine);
      ItemIsBand(item, engine);
      if l in more {
        var i :| 0 <= i < |targets| && l == LocOf(targets[i], engine);
        TargetsApart(Item(item), targets[i], engine);
      }
    }
  }

  /** What the swaps keep between any two of them. */
  ghost predicate Swapping(disk: Disk, members: seq<Member>, targets: seq<Target>, engine: string, n: nat)
    requires n <= |targets|
    reads disk
  {
    && disk.Kept() && Undisturbed(disk.start, disk.moved, engine, Stagings(targets, engine))
    && Swapped(disk.fs, disk.ours, members, targets, engine, n) && Absent(disk.fs, targets, engine)
  }

  /** The old version aside, the new one in. */
  method SwapOne(disk: Disk, ghost members: seq<Member>, targets: seq<Target>, engine: string, stamp: string, n: nat)
      returns (ok: bool, kept: seq<Loc>)
    requires n < |targets| && Proper(targets) && Swapping(disk, members, targets, engine, n)
    modifies disk
    ensures disk.Kept() && disk.start == old(disk.start)
    ensures ok ==> Swapping(disk, members, targets, engine, n + 1)
    ensures ok ==> disk.asides == old(disk.asides) + kept
    ensures disk.blocked == old(disk.blocked)
    ensures disk.failed == (old(disk.failed) || !ok)
  {
    hide IsBand, LocOf, Staging, Undisturbed, Swapped, Absent, Disk.Kept, Relocated;
    var l := LocOf(targets[n], engine);
    kept := [];
    NextIsFree(disk.fs, disk.ours, members, targets, engine, n);
    if l in disk.fs {
      EngineIsBeside(targets[n], engine);
      ghost var fs := disk.fs;
      var a;
      ok, a := MoveAside(disk, l, stamp, targets[n] != Engine, engine, Stagings(targets, engine));
      if !ok {
        return;
      }
      SwappedStays(fs, disk.fs, disk.ours, members, targets, engine, n);
      AbsentStays(fs, disk.fs, targets, engine, {a});
      kept := [a];
    }
    OneMoreSwapped(disk.fs, disk.ours, members, targets, engine, n);
    ghost var fs := disk.fs;
    KeptApart(disk);
    OursLeavesUndisturbed(disk.start, disk.moved, Staging(l), l);
    ok := disk.Rename(Staging(l), l);
    if ok {
      AbsentStays(fs, disk.fs, targets, engine, {l});
    }
  }

  lemma EngineIsBeside(t: Target, engine: string)
    requires IsTarget(t)
    ensures LocOf(t, engine).area == Parent <==> t == Engine
    ensures t == Engine ==> |LocOf(t, engine).name| == |engine|
  {
    if t.Item? {
      ItemsStartPlain(t.item);
    }
  }

  lemma KeptApart(disk: Disk)
    requires disk.Kept()
    ensures forall l :: l in disk.ours ==> l !in disk.moved.Values
  {
  }

  method SwapAll(disk: Disk, ghost members: seq<Member>, targets: seq<Target>, engine: string, stamp: string)
      returns (ok: bool, kept: seq<Loc>)
    requires Proper(targets) && Swapping(disk, members, targets, engine, 0)
    modifies disk
    ensures disk.Kept() && disk.start == old(disk.start)
    ensures ok ==> Swapping(disk, members, targets, engine, |targets|)
    ensures ok ==> disk.asides == old(disk.asides) + kept
    ensures disk.blocked == old(disk.blocked)
    ensures disk.failed == (old(disk.failed) || !ok)
  {
    hide *;
    SwappingIsKept(disk, members, targets, engine, 0);
    kept := [];
    var n := 0;
    while n < |targets|
      invariant 0 <= n <= |targets|
      invariant disk.failed == old(disk.failed) && disk.asides == old(disk.asides) + kept
      invariant disk.blocked == old(disk.blocked)
      invariant disk.Kept() && disk.start == old(disk.start) && Swapping(disk, members, targets, engine, n)
    {
      var more;
      ok, more := SwapOne(disk, members, targets, engine, stamp, n);
      if !ok {
        return;
      }
      kept, n := kept + more, n + 1;
    }
    ok := true;
  }

  lemma SwappingIsKept(disk: Disk, members: seq<Member>, targets: seq<Target>, engine: string, n: nat)
    requires n <= |targets| && Swapping(disk, members, targets, engine, n)
    ensures disk.Kept()
  {
  }

  // ----- the whole run

  /** The targets of these members: the engine's folder, then each item sent. */
  ghost predicate AreTargets(targets: seq<Target>, members: seq<Member>) {
    && Proper(targets)
    && forall t :: t in targets <==> t == Engine || exists k :: 0 <= k < |members| && Replaces(members[k], t)
  }

  method TargetsOf(members: seq<Member>) returns (targets: seq<Target>, sent: set<string>)
    requires forall k :: 0 <= k < |members| ==> ItemOf(members[k].name).Some?
    ensures AreTargets(targets, members)
    ensures forall item :: item in sent <==> Item(item) in targets
  {
    hide ItemOf;
    targets, sent := [Engine], {};
    var k := 0;
    while k < |members|
      invariant 0 <= k <= |members| && Proper(targets)
      invariant forall t :: t in targets <==> t == Engine || exists j :: 0 <= j < k && Replaces(members[j], t)
      invariant forall item :: item in sent <==> Item(item) in targets
    {
      var t := ItemOf(members[k].name).value;
      assert IsTarget(t) by { ItemOfIsTarget(members[k].name); }
      assert Replaces(members[k], t);
      if t != Engine && t.item !in sent {
        targets, sent := targets + [t], sent + {t.item};
      }
      k := k + 1;
    }
  }

  lemma ItemOfIsTarget(name: string)
    requires ItemOf(name).Some?
    ensures IsTarget(ItemOf(name).value)
  {
  }

  /** What a run that succeeds leaves: each target holds exactly the archive's files, unsent
      band items are gone from their names, and besides the targets there is exactly what was
      there before, undisturbed or kept aside. */
  ghost predicate Received(disk: Disk, members: seq<Member>, engine: string)
    reads disk`fs, disk`start, disk`moved
  {
    exists targets :: AreTargets(targets, members)
      && (forall i :: 0 <= i < |targets| ==>
            LocOf(targets[i], engine) in disk.fs && Holds(disk.fs[LocOf(targets[i], engine)], members, targets[i]))
      && Absent(disk.fs, targets, engine)
      && Undisturbed(disk.start, disk.moved, engine, Stagings(targets, engine))
      && disk.fs.Keys == disk.moved.Values + Places(targets, engine) && disk.moved.Values !! Places(targets, engine)
  }

  lemma SwappedIsReceived(disk: Disk, members: seq<Member>, targets: seq<Target>, engine: string)
    requires AreTargets(targets, members) && Swapping(disk, members, targets, engine, |targets|)
    ensures Received(disk, members, engine)
  {
    hide LocOf, Staging, Holds, Absent, Undisturbed, AreTargets;
    assert targets[..|targets|] == targets && targets[|targets|..] == [];
    assert Stagings([], engine) == {};
    assert disk.ours == Places(targets, engine);
    forall i | 0 <= i < |targets|
      ensures LocOf(targets[i], engine) in disk.fs && Holds(disk.fs[LocOf(targets[i], engine)], members, targets[i])
    {
      assert At(disk.fs, disk.ours, LocOf(targets[i], engine), members, targets[i]);
    }
  }

  /** The report: the moves in order, among them the present place of every entry that is not
      where it was, and the archive's members, each with the content the archive has for it. */
  ghost predicate Reported(disk: Disk, members: seq<Member>, r: Outcome)
    requires r.Done?
    reads disk`moved, disk`asides
  {
    && r.kept == disk.asides && (forall l :: l in disk.moved && disk.moved[l] != l ==> disk.moved[l] in r.kept)
    && (forall name :: name in r.written <==> exists k :: 0 <= k < |members| && members[k].name == name)
    && (forall k :: 0 <= k < |members| ==>
          members[k].name in r.written && r.written[members[k].name] == members[k].data)
  }

  /** Each member lies where its name says, with its content. */
  ghost predicate AllInPlace(fs: map<Loc, Tree>, members: seq<Member>, engine: string) {
    forall k :: 0 <= k < |members| && ItemOf(members[k].name).Some? ==> InPlace(fs, members[k], engine)
  }

  predicate InPlace(fs: map<Loc, Tree>, m: Member, engine: string)
    requires ItemOf(m.name).Some?
  {
    var l := LocOf(ItemOf(m.name).value, engine);
    l in fs && Content(fs[l], Inner(m.name)) == Some(m.data)
  }

  lemma HeldIsThere(tree: Tree, members: seq<Member>, t: Target, k: nat)
    requires Holds(tree, members, t) && k < |members| && Replaces(members[k], t)
    ensures Content(tree, Inner(members[k].name)) == Some(members[k].data)
  {
  }

  lemma SwappedIsThere(disk: Disk, members: seq<Member>, targets: seq<Target>, engine: string)
    requires AreTargets(targets, members) && Swapping(disk, members, targets, engine, |targets|)
    ensures AllInPlace(disk.fs, members, engine)
  {
    hide LocOf, Staging, Holds, Absent, Undisturbed, ItemOf, Inner, Content, Disk.Kept;
    forall k | 0 <= k < |members| && ItemOf(members[k].name).Some? ensures InPlace(disk.fs, members[k], engine) {
      var t := ItemOf(members[k].name).value;
      assert Replaces(members[k], t);
      assert t in targets;
      var i :| 0 <= i < |targets| && targets[i] == t;
      assert At(disk.fs, disk.ours, LocOf(targets[i], engine), members, t);
      HeldIsThere(disk.fs[LocOf(t, engine)], members, t, k);
    }
  }

  /** Every member read back from its place. */
  method ReadBack(disk: Disk, members: seq<Member>, engine: string) returns (ok: bool, written: map<string, Bytes>)
    requires forall k :: 0 <= k < |members| ==> ItemOf(members[k].name).Some?
    requires AllInPlace(disk.fs, members, engine)
    modifies disk`failed
    ensures disk.failed == (old(disk.failed) || !ok)
    ensures ok ==> forall name :: name in written <==> exists k :: 0 <= k < |members| && members[k].name == name
    ensures ok ==> forall k :: 0 <= k < |members| ==>
              members[k].name in written && written[members[k].name] == members[k].data
  {
    hide ItemOf, Inner, LocOf, Content;
    written := map[];
    var k := 0;
    while k < |members|
      invariant 0 <= k <= |members| && disk.failed == old(disk.failed)
      invariant forall name :: name in written <==> exists j :: 0 <= j < k && members[j].name == name
      invariant forall j :: 0 <= j < k ==> members[j].name in written && written[members[j].name] == members[j].data
    {
      assert InPlace(disk.fs, members[k], engine);
      var m := members[k];
      var data := disk.Read(LocOf(ItemOf(m.name).value, engine), Inner(m.name));
      if data.None? {
        return false, written;
      }
      forall j | 0 <= j < k && members[j].name == m.name ensures members[j].data == m.data {
        assert InPlace(disk.fs, members[j], engine);
      }
      written, k := written[m.name := data.value], k + 1;
    }
    ok := true;
  }

  lemma NotedIs(disk: Disk)
    requires disk.Kept()
    ensures Noted(disk.moved, disk.asides)
  {
  }

  /** Everything after the checks. */
  method Install(disk: Disk, members: seq<Member>, engine: string, stamp: string) returns (r: Outcome)
    requires disk.Kept() && disk.ours == {} && disk.asides == [] && !disk.failed
             && (forall l :: l in disk.start ==> disk.moved[l] == l)
    requires forall k :: 0 <= k < |members| ==> ItemOf(members[k].name).Some? && Another(members[..k], members[k])
    modifies disk
    ensures disk.Kept() && disk.start == old(disk.start)
    ensures r.Failed? || r.Done?
    ensures (r.Failed? <==> disk.failed) && disk.blocked == old(disk.blocked)
    ensures r.Done? ==> Received(disk, members, engine)
    ensures r.Done? ==> Reported(disk, members, r)
  {
    hide ItemOf, IsBand, LocOf, Staging, Disk.Kept, Received, Swapping, AllStaged, AllInPlace, Free, OursOnly, Another;
    var targets, sent := TargetsOf(members);
    AtFirst(disk, engine, Stagings(targets, engine));
    hide Undisturbed;
    var ok, stale := StashStale(disk, targets, engine, stamp);
    if !ok {
      return Failed;
    }
    var unsent;
    ItemsAreItems();
    ok, unsent := StashUnsent(disk, SERVER_FILES + SERVER_FOLDERS, sent, engine, stamp, Stagings(targets, engine),
                              targets);
    if !ok {
      return Failed;
    }
    UnsentIsAbsent(disk.fs, targets, sent, engine);
    ghost var fs := disk.fs;
    ok := MakeFolders(disk, targets, engine);
    if !ok {
      return Failed;
    }
    StagingIsAbsent(fs, disk.fs, disk.ours, [], targets, engine);
    fs := disk.fs;
    TargetsAreListed(members, targets);
    ok := WriteAll(disk, members, targets, engine);
    if !ok {
      return Failed;
    }
    StagingIsAbsent(fs, disk.fs, disk.ours, members, targets, engine);
    StagedIsUnswapped(disk.fs, disk.ours, members, targets, engine);
    assert Swapping(disk, members, targets, engine, 0) by { StartsSwapping(disk, members, targets, engine); }
    var replaced;
    ok, replaced := SwapAll(disk, members, targets, engine, stamp);
    if !ok {
      return Failed;
    }
    SwappedIsReceived(disk, members, targets, engine);
    SwappedIsThere(disk, members, targets, engine);
    var written;
    ok, written := ReadBack(disk, members, engine);
    if !ok {
      return Failed;
    }
    NotedIs(disk);
    return Done(stale + unsent + replaced, written);
  }

  lemma AtFirst(disk: Disk, engine: string, staged: set<Loc>)
    requires disk.Kept() && forall l :: l in disk.start ==> disk.moved[l] == l
    ensures Undisturbed(disk.start, disk.moved, engine, staged)
  {
  }

  lemma ItemsAreItems()
    ensures var items := SERVER_FILES + SERVER_FOLDERS;
            (forall i :: 0 <= i < |items| ==> IsItem(items[i])) && forall item :: IsItem(item) ==> item in items
  {
  }

  lemma UnsentIsAbsent(fs: map<Loc, Tree>, targets: seq<Target>, sent: set<string>, engine: string)
    requires var items := SERVER_FILES + SERVER_FOLDERS;
             forall i :: 0 <= i < |items| && items[i] !in sent ==> LocOf(Item(items[i]), engine) !in fs
    requires forall item :: item in sent <==> Item(item) in targets
    ensures Absent(fs, targets, engine)
  {
    hide LocOf;
    ItemsAreItems();
  }

  lemma StagingIsAbsent(fs: map<Loc, Tree>, later: map<Loc, Tree>, ours: set<Loc>, members: seq<Member>,
                        targets: seq<Target>, engine: string)
    requires Absent(fs, targets, engine) && Proper(targets) && AllStaged(later, ours, members, targets, engine)
    requires later.Keys == fs.Keys + ours
    ensures Absent(later, targets, engine)
  {
    hide LocOf, IsBand, Staging, Absent, Staged;
    forall l | l in ours ensures !IsBand(l, engine) {
      assert l in Stagings(targets, engine);
      var i :| 0 <= i < |targets| && l == Staging(LocOf(targets[i], engine));
      StagingIsBeside(targets[i], engine);
      BesideIsNotBand(l, engine);
    }
    AbsentStays(fs, later, targets, engine, ours);
  }

  lemma TargetsAreListed(members: seq<Member>, targets: seq<Target>)
    requires AreTargets(targets, members) && forall k :: 0 <= k < |members| ==> ItemOf(members[k].name).Some?
    ensures Listed(members, targets)
    ensures forall i :: 0 <= i < |targets| ==>
              IsFolder(targets[i]) || exists k :: 0 <= k < |members| && Replaces(members[k], targets[i])
  {
    hide ItemOf;
    forall k | 0 <= k < |members| ensures HasTarget(members[k], targets) {
      var t := ItemOf(members[k].name).value;
      assert Replaces(members[k], t);
      assert t in targets;
      var i :| 0 <= i < |targets| && targets[i] == t;
      assert Replaces(members[k], targets[i]);
    }
    forall i | 0 <= i < |targets|
      ensures IsFolder(targets[i]) || exists k :: 0 <= k < |members| && Replaces(members[k], targets[i])
    {
      if targets[i] != Engine {
        assert targets[i] in targets;
        var k :| 0 <= k < |members| && Replaces(members[k], targets[i]);
      }
    }
  }

  lemma StartsSwapping(disk: Disk, members: seq<Member>, targets: seq<Target>, engine: string)
    requires disk.Kept() && Undisturbed(disk.start, disk.moved, engine, Stagings(targets, engine))
    requires Swapped(disk.fs, disk.ours, members, targets, engine, 0) && Absent(disk.fs, targets, engine)
    ensures Swapping(disk, members, targets, engine, 0)
  {
  }

  /** The bytes as a zip: its listing, and the content of each member that can be read. */
  datatype Archive = Archive(infos: seq<Info>, contents: map<string, Bytes>)

  /** A whole run over an archive of `size` bytes (`None`: no zip). A refusal changes
      nothing; whatever else happens, every entry of the start is kept whole. */
  method Receive(disk: Disk, size: nat, archive: Option<Archive>, foldersThere: bool, engine: string, stamp: string)
      returns (r: Outcome, ghost members: seq<Member>)
    requires disk.Kept() && disk.ours == {} && disk.asides == [] && !disk.failed
             && (forall l :: l in disk.start ==> disk.moved[l] == l)
    modifies disk
    ensures disk.Kept() && disk.start == old(disk.start)
    ensures r.Refused? ==> disk.fs == old(disk.fs)
    ensures r.Refused? <==> size > 0x2000_0000 || archive.None? || !Acceptable(archive.value.infos) || !foldersThere
                            || exists name :: name in Files(archive.value.infos) && name !in archive.value.contents
    ensures (r.Failed? <==> disk.failed) && disk.blocked == old(disk.blocked)
    ensures r.Done? ==> Received(disk, members, engine) && Reported(disk, members, r)
    ensures !r.Refused? ==> |members| == |Files(archive.value.infos)| && forall k :: 0 <= k < |members| ==>
              members[k].name == Files(archive.value.infos)[k]
                && members[k].data == archive.value.contents[members[k].name]
  {
    hide Disk.Kept, ItemOf, Received, Reported;
    members := [];
    if size > MAX_ARCHIVE || archive.None? {
      return Refused, [];
    }
    var files := Check(archive.value.infos);
    if files.None? {
      return Refused, [];
    }
    var all := ReadAll(files.value, archive.value.contents);
    if all.None? || !foldersThere {
      return Refused, [];
    }
    FilesAreAllowed(archive.value.infos);
    NamesAreApart(all.value);
    hide Acceptable;
    r := Install(disk, all.value, engine, stamp);
    members := all.value;
  }

  /** Every member's content, before anything is written; none when one cannot be read. */
  method ReadAll(names: seq<string>, contents: map<string, Bytes>) returns (all: Option<seq<Member>>)
    ensures all.None? <==> exists name :: name in names && name !in contents
    ensures all.Some? ==> |all.value| == |names| && forall k :: 0 <= k < |names| ==>
              names[k] in contents && all.value[k] == Member(names[k], contents[names[k]])
  {
    var out := [];
    var k := 0;
    while k < |names|
      invariant 0 <= k <= |names| && |out| == k
      invariant forall j :: 0 <= j < k ==> names[j] in contents && out[j] == Member(names[j], contents[names[j]])
    {
      if names[k] !in contents {
        return None;
      }
      out, k := out + [Member(names[k], contents[names[k]])], k + 1;
    }
    return Some(out);
  }

  lemma {:induction false} FilesAreAllowed(infos: seq<Info>)
    requires forall i :: 0 <= i < |infos| ==> Allowed(infos[i])
    ensures forall k :: 0 <= k < |Files(infos)| ==> ItemOf(Files(infos)[k]).Some?
  {
    hide ItemOf;
    if infos != [] {
      FilesAreAllowed(infos[..|infos| - 1]);
    }
  }

  lemma NamesAreApart(members: seq<Member>)
    requires forall i, j :: 0 <= i < j < |members| ==> members[i].name != members[j].name
    ensures forall k :: 0 <= k < |members| ==> Another(members[..k], members[k])
  {
  }
}
