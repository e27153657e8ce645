/**
The names a receive uses: where each target lies, where its new version is staged, and the
free names old versions move to.
*/
module BandPlaces {
  import opened BandNames
  import opened BandDisk

  predicate IsItem(item: string) {
    item in SERVER_FILES || item in SERVER_FOLDERS
  }

  function LocOf(t: Target, engine: string): Loc {
    match t
    case Engine => Loc(Parent, engine)
    case Item(item) => if StartsWith(item, "secrets/") then Loc(Secrets, item[8..]) else Loc(Site, item)
  }

  function Staging(l: Loc): Loc {
    Loc(l.area, "." + l.name + ".incoming")
  }

  predicate IsTarget(t: Target) {
    t.Engine? || IsItem(t.item)
  }

  /** A place a receive may put something the box reads: the engine's folder or a band item's. */
  ghost predicate IsBand(l: Loc, engine: string) {
    exists t: Target :: IsTarget(t) && l == LocOf(t, engine)
  }

  lemma ItemsStartPlain(item: string)
    requires IsItem(item)
    ensures LocOf(Item(item), "").name != "" && LocOf(Item(item), "").name[0] != '.'
            && LocOf(Item(item), "").area != Parent
  {
    if item in SERVER_FILES {
      assert item == SERVER_FILES[0] || item == SERVER_FILES[1] || item == SERVER_FILES[2] || item[0] == 'r'
             || item[0] == 'p' || item[0] == 'a';
      assert "secrets/jwt_secret"[8] == 'j' && "secrets/vapid_private"[8] == 'v' && "secrets/pin_hashes.json"[8] == 'p';
    }
  }

  lemma BandIs(l: Loc, engine: string)
    requires IsBand(l, engine)
    ensures l.area == Parent ==> l.name == engine
    ensures l.area != Parent ==> l.name != "" && l.name[0] != '.'
  {
    var t: Target :| IsTarget(t) && l == LocOf(t, engine);
    if t.Item? {
      ItemsStartPlain(t.item);
    }
  }

  /** Names that start with a dot in the site, or are longer than the engine's beside it. */
  predicate Beside(l: Loc, engine: string) {
    if l.area == Parent then |l.name| > |engine| else l.name != "" && l.name[0] == '.'
  }

  lemma BesideIsNotBand(l: Loc, engine: string)
    requires Beside(l, engine)
    ensures !IsBand(l, engine)
  {
    if IsBand(l, engine) {
      BandIs(l, engine);
    }
  }

  lemma StagingIsBeside(t: Target, engine: string)
    requires IsTarget(t)
    ensures Beside(Staging(LocOf(t, engine)), engine)
  {
  }

  lemma TargetsApart(t: Target, u: Target, engine: string)
    requires IsTarget(t) && IsTarget(u) && t != u
    ensures LocOf(t, engine) != LocOf(u, engine) && Staging(LocOf(t, engine)) != Staging(LocOf(u, engine))
  {
    var x, y := LocOf(t, engine), LocOf(u, engine);
    if t.Item? {
      SecretPath(t.item);
    }
    if u.Item? {
      SecretPath(u.item);
    }
    if Staging(x) == Staging(y) {
      Unwrapped(x.name, y.name);
    }
  }

  lemma SecretPath(item: string)
    ensures StartsWith(item, "secrets/") ==> item == "secrets/" + item[8..]
  {
  }

  lemma Unwrapped(a: string, b: string)
    requires "." + a + ".incoming" == "." + b + ".incoming"
    ensures a == b
  {
    var s := "." + a + ".incoming";
    assert s[1..|s| - 9] == a && s[1..|s| - 9] == b;
  }

  // ----- free names

  function Dec(n: nat): (s: string)
    ensures s != ""
  {
    if n < 10 then [('0' as int + n) as char] else Dec(n / 10) + [('0' as int + n % 10) as char]
  }

  lemma {:induction false} DecApart(a: nat, b: nat)
    requires Dec(a) == Dec(b)
    ensures a == b
  {
    var x, y := Dec(a), Dec(b);
    assert x[|x| - 1] == y[|y| - 1];
    if a >= 10 && b >= 10 {
      assert x[..|x| - 1] == Dec(a / 10) && y[..|y| - 1] == Dec(b / 10);
      DecApart(a / 10, b / 10);
    }
  }

  /** The n-th name tried for an old version. */
  function Numbered(base: string, n: nat): string {
    if n == 0 then base else base + "-" + Dec(n)
  }

  lemma NumberedApart(base: string, a: nat, b: nat)
    requires a != b
    ensures Numbered(base, a) != Numbered(base, b)
  {
    if Numbered(base, a) == Numbered(base, b) {
      var i := |base| + 1;
      assert a > 0 ==> (base + "-" + Dec(a))[i..] == Dec(a);
      assert b > 0 ==> (base + "-" + Dec(b))[i..] == Dec(b);
      if a > 0 && b > 0 {
        DecApart(a, b);
      }
    }
  }

  function AsideBase(l: Loc, stamp: string, hidden: bool): string {
    (if hidden then "." else "") + l.name + ".before-" + stamp
  }

  /** The n-th name of that form is the first that is free. */
  ghost predicate FirstFree(fs: map<Loc, Tree>, area: Area, base: string, n: nat) {
    Loc(area, Numbered(base, n)) !in fs && forall k: nat :: k < n ==> Loc(area, Numbered(base, k)) in fs
  }

  /** A free name beside `l` for its old version: `<name>.before-<stamp>`, or the first free
      one of those with a number at the end. */
  method Aside(fs: map<Loc, Tree>, l: Loc, stamp: string, hidden: bool) returns (a: Loc)
    ensures exists n: nat :: FirstFree(fs, l.area, AsideBase(l, stamp, hidden), n)
                             && a == Loc(l.area, Numbered(AsideBase(l, stamp, hidden), n))
    ensures a !in fs && a.area == l.area && |a.name| > |l.name|
    ensures hidden ==> a.name[0] == '.'
    ensures !hidden && l.name != "" ==> a.name[0] == l.name[0]
  {
    hide Numbered;
    var base := AsideBase(l, stamp, hidden);
    var path, n := Loc(l.area, base), 1;
    ghost var left := fs.Keys;
    assert Numbered(base, 0) == base by { FirstName(base); }
    while path in fs
      invariant n >= 1 && path == Loc(l.area, Numbered(base, n - 1))
      invariant left <= fs.Keys
      invariant forall k: nat :: k < n - 1 ==> Loc(l.area, Numbered(base, k)) in fs
      invariant forall k: nat :: k >= n - 1 && Loc(l.area, Numbered(base, k)) in fs ==>
                  Loc(l.area, Numbered(base, k)) in left
      decreases |left|
    {
      forall k: nat | k >= n ensures Numbered(base, k) != Numbered(base, n - 1) {
        NumberedApart(base, k, n - 1);
      }
      left := left - {path};
      LaterName(base, n);
      path, n := Loc(l.area, base + "-" + Dec(n)), n + 1;
    }
    NameGrows(base, n - 1);
    assert FirstFree(fs, l.area, base, n - 1);
    return path;
  }

  lemma FirstName(base: string)
    ensures Numbered(base, 0) == base
  {
  }

  lemma LaterName(base: string, n: nat)
    requires n > 0
    ensures Numbered(base, n) == base + "-" + Dec(n)
  {
  }

  lemma NameGrows(base: string, n: nat)
    requires base != ""
    ensures |Numbered(base, n)| >= |base| && Numbered(base, n)[0] == base[0]
  {
  }

  // ----- names old versions move to are never staging names

  /** Where the dots of a band item's name are; no item is named like what stands before one. */
  ghost predicate Dotted(n: string) {
    && (|n| == 10 ==> n[0] == 'j') && (|n| == 6 ==> n[0] == 'p') && |n| != 18 && |n| != 19
    && forall k :: 0 <= k < |n| && n[k] == '.' ==>
         (k == 6 && n[0] == 'r') || (k == 10 && n[0] == 'p') || k == 18 || k == 19
  }

  lemma PlainNames(n: string)
    requires n in ["jwt_secret", "vapid_private", "push_subs_v2_migrated"]
             || n in ["lineups", "photos", "presets", "snapshots", "customizations", "backups"]
    ensures Dotted(n)
  {
  }

  lemma PinsDotted()
    ensures Dotted("pin_hashes.json")
  {
  }

  lemma RosterDotted()
    ensures Dotted("roster.toml")
  {
  }

  lemma PushDotted()
    ensures Dotted("push_subscriptions.json")
  {
  }

  lemma AlarmDotted()
    ensures Dotted("alarm_subscriptions.json")
  {
  }

  lemma NamesAreDotted(item: string)
    requires IsItem(item)
    ensures Dotted(LocOf(Item(item), "").name)
  {
    ListsAre(item);
    PinsDotted();
    RosterDotted();
    PushDotted();
    AlarmDotted();
    hide Dotted;
    if item == "secrets/jwt_secret" {
      assert item[8..] == "jwt_secret";
      PlainNames("jwt_secret");
    } else if item == "secrets/vapid_private" {
      assert item[8..] == "vapid_private";
      PlainNames("vapid_private");
    } else if item == "secrets/pin_hashes.json" {
      assert item[8..] == "pin_hashes.json";
    } else {
      NotSecret(item);
      if item !in ["roster.toml", "push_subscriptions.json", "alarm_subscriptions.json"] {
        PlainNames(item);
      }
    }
  }

  lemma NotSecret(item: string)
    requires IsListedFile(item) || IsListedFolder(item)
    requires item !in ["secrets/jwt_secret", "secrets/vapid_private", "secrets/pin_hashes.json"]
    ensures LocOf(Item(item), "").name == item
  {
    assert "secrets/"[0] == 's' && "secrets/"[1] == 'e';
    assert item[0] == 's' ==> item[1] == 'n';
  }

  /** No item's name goes on after another's with a dot. */
  lemma NoneGoesOn(x: string, y: string)
    requires Dotted(x) && Dotted(y) && x != "" && |x| < |y| && y[|x|] == '.'
    ensures y[..|x|] != x
  {
    assert y[..|x|][0] == y[0] && x[0] != y[0];
  }

  predicate Begins(s: string, prefix: string) {
    |prefix| <= |s| && s[..|prefix|] == prefix
  }

  lemma BeginsAt(name: string, item: string, rest: string)
    requires Begins(name, "." + item + rest)
    ensures |name| >= 1 + |item| + |rest|
    ensures forall n :: 0 <= n < |item| ==> name[1 + n] == item[n]
    ensures forall n :: 0 <= n < |rest| ==> name[1 + |item| + n] == rest[n]
  {
    var base := "." + item + rest;
    forall n | 0 <= n < |base| ensures name[n] == base[n] {
      assert name[..|base|][n] == base[n];
    }
    forall n | 0 <= n < |item| ensures name[1 + n] == item[n] {
      assert base[1 + n] == item[n];
    }
    forall n | 0 <= n < |rest| ensures name[1 + |item| + n] == rest[n] {
      assert base[1 + |item| + n] == rest[n];
    }
  }

  /** Two items' names in one, each with a dot after it, are of one length. */
  lemma OneItem(name: string, x: string, y: string)
    requires Dotted(x) && Dotted(y) && x != "" && |x| < |y| < |name| - 1 && name[1 + |x|] == '.'
    requires forall n :: 0 <= n < |x| ==> name[1 + n] == x[n]
    ensures exists n :: 0 <= n < |y| && name[1 + n] != y[n]
  {
    if y[|x|] == '.' {
      NoneGoesOn(x, y);
      var n :| 0 <= n < |x| && y[..|x|][n] != x[n];
      assert name[1 + n] != y[n];
    } else {
      assert name[1 + |x|] != y[|x|];
    }
  }

  /** A name made of an item's with `.incoming.before-` or `.before-` after it is no item's
      staging name. */
  lemma AsideIsNoStaging(x: string, y: string, name: string, hidden: bool)
    requires Dotted(x) && Dotted(y) && x != "" && y != ""
    requires Begins(name, "." + x + if hidden then ".before-" else ".incoming.before-")
    ensures name != "." + y + ".incoming"
  {
    var rest := if hidden then ".before-" else ".incoming.before-";
    BeginsAt(name, x, rest);
    if name == "." + y + ".incoming" {
      BeginsAt(name, y, ".incoming");
      hide *;
      assert name[1 + |x| + 0] == rest[0] && name[1 + |x| + 1] == rest[1];
      assert name[1 + |y| + 0] == ".incoming"[0] && |".incoming"| < |".incoming.before-"|;
      if |x| < |y| {
        OneItem(name, x, y);
      } else if |y| < |x| {
        OneItem(name, y, x);
      }
    }
  }
}
