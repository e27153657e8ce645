/**
The files of the box while a band archive is received: folders are entries moved whole,
any call may fail, and a write that fails may leave part of a file. Every entry that was
there at the start is followed by a ghost map to where it is now.
*/
module BandDisk {
  import opened Options
  import opened BandNames

  /** Where an entry lies: beside the engine's folder, in the site, or among its secrets. */
  datatype Area = Parent | Site | Secrets

  datatype Loc = Loc(area: Area, name: string)

  /** A file, a folder by its files' paths, or anything else (a link, a device). */
  datatype Tree = File(data: Bytes) | Folder(files: map<seq<string>, Bytes>) | Other(what: nat)

  /** The path is, or lies under, or lies above one that is there. */
  predicate Clashes(files: map<seq<string>, Bytes>, path: seq<string>) {
    exists p :: p in files && (p <= path || path <= p)
  }

  ghost predicate AllThere(fs: map<Loc, Tree>, start: map<Loc, Tree>, moved: map<Loc, Loc>, ours: set<Loc>) {
    && moved.Keys == start.Keys
    && (forall l :: l in start ==> moved[l] in fs && fs[moved[l]] == start[l])
    && (forall k, l :: k in moved && l in moved && k != l ==> moved[k] != moved[l])
    && fs.Keys == moved.Values + ours
    && moved.Values !! ours
  }

  /** Every entry that is not where it was lies where a move noted it. */
  ghost predicate Noted(moved: map<Loc, Loc>, asides: seq<Loc>) {
    forall l :: l in moved && moved[l] != l ==> moved[l] in asides
  }

  /** The bytes of a file, or of one inside a folder. */
  function Content(tree: Tree, path: seq<string>): Option<Bytes> {
    match tree
    case File(data) => if path == [] then Some(data) else None
    case Folder(files) => if path in files then Some(files[path]) else None
    case Other(_) => None
  }

  class Disk {
    var fs: map<Loc, Tree>
    /** What was there at the start, where each of it is now, and what is ours. */
    ghost var start: map<Loc, Tree>
    ghost var moved: map<Loc, Loc>
    ghost var ours: set<Loc>
    /** Where old entries were moved to, in order. */
    ghost var asides: seq<Loc>
    /** A call has failed, by itself or because something was in its way. */
    ghost var failed: bool
    /** Something stood at the place of a new entry. */
    ghost var blocked: bool

    /** Every entry of the start is still there, whole, under a name of its own; all else on
        the disk was put there by this run. */
    ghost predicate Kept()
      reads this`fs, this`start, this`moved, this`ours, this`asides
    {
      AllThere(fs, start, moved, ours) && Noted(moved, asides)
    }

    constructor (fs: map<Loc, Tree>)
      ensures this.fs == fs && start == fs && ours == {} && asides == [] && !failed && !blocked && Kept()
      ensures forall l :: l in start ==> moved[l] == l
    {
      this.fs := fs;
      start := fs;
      moved := map l | l in fs :: l;
      ours, asides, failed, blocked := {}, [], false, false;
    }

    /** A rename to a free name: all or nothing. */
    method Rename(from: Loc, to: Loc) returns (ok: bool)
      requires Kept() && from in fs && to !in fs
      modifies this
      ensures Kept() && start == old(start)
      ensures !ok ==> fs == old(fs) && moved == old(moved) && ours == old(ours) && asides == old(asides)
      ensures blocked == old(blocked)
      ensures ok ==> asides == if from in old(ours) then old(asides) else old(asides) + [to]
      ensures ok ==> fs == (old(fs) - {from})[to := old(fs)[from]]
      ensures ok ==> moved == Relocated(old(moved), from, to)
      ensures ok ==> ours == if from in old(ours) then old(ours) - {from} + {to} else old(ours)
      ensures failed == (old(failed) || !ok)
    {
      hide AllThere, Relocated, Noted;
      ok := *;
      failed := failed || !ok;
      if ok {
        RenameKeeps(fs, start, moved, ours, from, to);
        RenameNotes(fs, start, moved, ours, asides, from, to);
        asides := if from in ours then asides else asides + [to];
        fs := (fs - {from})[to := fs[from]];
        moved := Relocated(moved, from, to);
        ours := if from in ours then ours - {from} + {to} else ours;
      }
    }

    /** A new folder: it fails where something is. */
    method MakeFolder(at: Loc) returns (ok: bool)
      requires Kept()
      modifies this`fs, this`ours, this`failed, this`blocked
      ensures blocked == (old(blocked) || at in old(fs))
      ensures Kept()
      ensures !ok ==> fs == old(fs) && ours == old(ours)
      ensures ok ==> at !in old(fs) && fs == old(fs)[at := Folder(map[])] && ours == old(ours) + {at}
      ensures failed == (old(failed) || !ok)
    {
      ok := *;
      ok := ok && at !in fs;
      failed, blocked := failed || !ok, blocked || at in fs;
      if at in fs {
        return;
      }
      if ok {
        fs := fs[at := Folder(map[])];
        ours := ours + {at};
      }
    }

    /** A new file of its own: it fails where something is, and may fail half-written. */
    method WriteFile(at: Loc, data: Bytes) returns (ok: bool)
      requires Kept()
      modifies this`fs, this`ours, this`failed, this`blocked
      ensures blocked == (old(blocked) || at in old(fs))
      ensures Kept()
      ensures ok ==> at !in old(fs) && fs == old(fs)[at := File(data)] && ours == old(ours) + {at}
      ensures forall l :: l in old(fs) ==> l in fs && fs[l] == old(fs)[l]
      ensures failed == (old(failed) || !ok)
    {
      ok := *;
      ok := ok && at !in fs;
      failed, blocked := failed || !ok, blocked || at in fs;
      if at in fs {
        return;
      }
      var begun: bool, written: nat := *, *;
      if !ok && !begun {
        return;
      }
      fs := fs[at := File(if ok || written > |data| then data else data[..written])];
      ours := ours + {at};
    }

    /** A file read back. */
    method Read(at: Loc, path: seq<string>) returns (data: Option<Bytes>)
      modifies this`failed
      ensures data.Some? ==> at in fs && Content(fs[at], path) == data
      ensures failed == (old(failed) || data.None?)
    {
      var fails: bool := *;
      data := if fails || at !in fs then None else Content(fs[at], path);
      failed := failed || data.None?;
    }

    /** A new file inside a folder of ours. */
    method WriteInside(at: Loc, path: seq<string>, data: Bytes) returns (ok: bool)
      requires Kept() && at in ours && fs[at].Folder?
      modifies this`fs, this`ours, this`failed
      ensures Kept() && ours == old(ours)
      ensures ok ==> !Clashes(old(fs)[at].files, path) && path !in old(fs)[at].files
      ensures ok ==> fs == old(fs)[at := Folder(old(fs)[at].files[path := data])]
      ensures forall l :: l in old(fs) && l != at ==> l in fs && fs[l] == old(fs)[l]
      ensures failed == (old(failed) || !ok)
    {
      ok := *;
      var files := fs[at].files;
      ok := ok && !Clashes(files, path);
      failed := failed || !ok;
      if Clashes(files, path) {
        return;
      }
      var begun: bool, written: nat := *, *;
      if !ok && !begun {
        return;
      }
      fs := fs[at := Folder(files[path := if ok || written > |data| then data else data[..written]])];
    }
  }

  /** A move of ours changes no old entry; one of an old entry is noted. */
  lemma RenameNotes(fs: map<Loc, Tree>, start: map<Loc, Tree>, moved: map<Loc, Loc>, ours: set<Loc>, asides: seq<Loc>,
                    from: Loc, to: Loc)
    requires AllThere(fs, start, moved, ours) && Noted(moved, asides)
    ensures Noted(Relocated(moved, from, to), if from in ours then asides else asides + [to])
  {
  }

  ghost function Relocated(moved: map<Loc, Loc>, from: Loc, to: Loc): map<Loc, Loc> {
    map l | l in moved :: if moved[l] == from then to else moved[l]
  }

  lemma RenameKeeps(fs: map<Loc, Tree>, start: map<Loc, Tree>, moved: map<Loc, Loc>, ours: set<Loc>, from: Loc, to: Loc)
    requires from in fs && to !in fs && AllThere(fs, start, moved, ours)
    ensures AllThere((fs - {from})[to := fs[from]], start, Relocated(moved, from, to),
                     if from in ours then ours - {from} + {to} else ours)
  {
    RelocatedValues(moved, from, to);
  }

  lemma RelocatedValues(moved: map<Loc, Loc>, from: Loc, to: Loc)
    requires to !in moved.Values && from != to
    ensures Relocated(moved, from, to).Values ==
            if from in moved.Values then moved.Values - {from} + {to} else moved.Values
  {
    var m := Relocated(moved, from, to);
    forall x | x in moved.Values && x != from ensures x in m.Values {
      var l :| l in moved && moved[l] == x;
      assert m[l] == x;
    }
    if from in moved.Values {
      var l :| l in moved && moved[l] == from;
      assert m[l] == to;
    }
  }
}
