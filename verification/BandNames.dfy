/**
Which members of a band archive are taken, and what on the box each of them replaces.
*/
module BandNames {
  import opened Options

  type Bytes = seq<nat>

  /** What a member replaces: the engine's state folder whole, or one item of the site. */
  datatype Target = Engine | Item(item: string)

  const SERVER_FILES: seq<string> :=
    ["secrets/jwt_secret", "secrets/vapid_private", "secrets/pin_hashes.json", "roster.toml",
     "push_subscriptions.json", "push_subs_v2_migrated", "alarm_subscriptions.json"]
  const SERVER_FOLDERS: seq<string> := ["lineups", "photos", "presets", "snapshots", "customizations", "backups"]
  const ENGINE_FILES: seq<string> := ["current.json", "baseline.json"]
  const ENGINE_MARKER: string := "current.json.rev-"
  const CURRENT: string := "engine/current.json"

  const MAX_ARCHIVE: nat := 0x2000_0000
  const MAX_MEMBER: nat := 0x400_0000
  const MAX_MEMBERS: nat := 10000

  /** The parts of a path between slashes. */
  function Parts(s: string): (r: seq<string>)
    ensures |r| >= 1
  {
    if s == "" then [""]
    else if s[0] == '/' then [""] + Parts(s[1..])
    else
      var rest := Parts(s[1..]);
      [[s[0]] + rest[0]] + rest[1..]
  }

  function Path(parts: seq<string>): string
    requires parts != []
  {
    if |parts| == 1 then parts[0] else parts[0] + "/" + Path(parts[1..])
  }

  lemma {:induction false} PathOfParts(s: string)
    ensures Path(Parts(s)) == s
  {
    if s != "" {
      PathOfParts(s[1..]);
      var rest := Parts(s[1..]);
      if s[0] == '/' {
        assert Parts(s)[1..] == rest;
        assert "" + "/" + s[1..] == s;
      } else if |rest| == 1 {
        assert s == [s[0]] + s[1..];
      } else {
        assert Parts(s)[1..] == rest[1..];
        assert [s[0]] + (rest[0] + "/" + Path(rest[1..])) == ([s[0]] + rest[0]) + "/" + Path(rest[1..]);
        assert s == [s[0]] + s[1..];
      }
    }
  }

  predicate Plain(part: string) {
    part != "" && part != "." && part != ".."
  }

  predicate StartsWith(s: string, prefix: string) {
    |prefix| <= |s| && s[..|prefix|] == prefix
  }

  predicate EndsWith(s: string, suffix: string) {
    |suffix| <= |s| && s[|s| - |suffix|..] == suffix
  }

  predicate Digits(s: string) {
    s != "" && forall i :: 0 <= i < |s| ==> '0' <= s[i] <= '9'
  }

  predicate EngineLeaf(leaf: string) {
    || leaf in ENGINE_FILES
    || (StartsWith(leaf, ENGINE_MARKER) && Digits(leaf[|ENGINE_MARKER|..]))
    || (StartsWith(leaf, "gen-") && EndsWith(leaf, ".json"))
  }

  /** What an allowed member replaces; nothing for any other name. */
  function ItemOf(name: string): (r: Option<Target>)
    ensures r.Some? ==> (forall i :: 0 <= i < |Parts(name)| ==> Plain(Parts(name)[i])) && |Parts(name)| >= 2
    ensures r.Some? && r.value.Item? ==> r.value.item in SERVER_FILES || r.value.item in SERVER_FOLDERS
  {
    var parts := Parts(name);
    if (exists i :: 0 <= i < |parts| && !Plain(parts[i])) || '\\' in name || |parts| < 2 then None
    else if parts[0] == "server" then
      if Path(parts[1..]) in SERVER_FILES then Some(Item(Path(parts[1..])))
      else if parts[1] in SERVER_FOLDERS && |parts| > 2 then Some(Item(parts[1]))
      else None
    else if parts[0] == "engine" && |parts| == 2 && EngineLeaf(parts[1]) then Some(Engine)
    else None
  }

  /** The member's path inside what it replaces: empty for an item that is a file. */
  function Inner(name: string): seq<string>
    requires ItemOf(name).Some?
  {
    var parts := Parts(name);
    match ItemOf(name).value
    case Engine => parts[1..]
    case Item(item) => if item in SERVER_FOLDERS then parts[2..] else []
  }

  // ----- which names are allowed

  predicate Clean(part: string) {
    Plain(part) && '/' !in part && '\\' !in part
  }

  predicate AllClean(parts: seq<string>) {
    forall i :: 0 <= i < |parts| ==> Clean(parts[i])
  }

  predicate IsListedFile(f: string) {
    || f == "secrets/jwt_secret" || f == "secrets/vapid_private" || f == "secrets/pin_hashes.json"
    || f == "roster.toml" || f == "push_subscriptions.json" || f == "push_subs_v2_migrated"
    || f == "alarm_subscriptions.json"
  }

  predicate IsListedFolder(d: string) {
    d == "lineups" || d == "photos" || d == "presets" || d == "snapshots" || d == "customizations" || d == "backups"
  }

  lemma ListsAre(s: string)
    ensures s in SERVER_FILES <==> IsListedFile(s)
    ensures s in SERVER_FOLDERS <==> IsListedFolder(s)
  {
    FilesListed(s);
    FoldersListed(s);
  }

  lemma FilesListed(s: string)
    ensures s in SERVER_FILES <==> IsListedFile(s)
  {
    if IsListedFile(s) {
      assert s == SERVER_FILES[0] || s == SERVER_FILES[1] || s == SERVER_FILES[2] || s == SERVER_FILES[3]
             || s == SERVER_FILES[4] || s == SERVER_FILES[5] || s == SERVER_FILES[6];
    }
  }

  lemma FoldersListed(s: string)
    ensures s in SERVER_FOLDERS <==> IsListedFolder(s)
  {
    if IsListedFolder(s) {
      assert s == SERVER_FOLDERS[0] || s == SERVER_FOLDERS[1] || s == SERVER_FOLDERS[2] || s == SERVER_FOLDERS[3]
             || s == SERVER_FOLDERS[4] || s == SERVER_FOLDERS[5];
    }
  }

  ghost predicate IsServerFile(name: string) {
    exists f: string :: IsListedFile(f) && name == "server/" + f
  }

  ghost predicate IsInServerFolder(name: string) {
    exists d: string, rest: seq<string> :: IsListedFolder(d) && rest != [] && AllClean(rest)
      && name == "server/" + (d + "/" + Path(rest))
  }

  ghost predicate IsEngineFile(name: string) {
    exists leaf: string :: StateFile(leaf) && Clean(leaf) && name == "engine/" + leaf
  }

  /** The engine's state files: the current and the baseline one, a revision's marker, and the
      kept generations. */
  ghost predicate StateFile(leaf: string) {
    || leaf == "current.json" || leaf == "baseline.json"
    || (exists digits: string :: Number(digits) && leaf == "current.json.rev-" + digits)
    || (exists which: string :: Generation(leaf, which))
  }

  ghost predicate Number(s: string) {
    s != "" && forall c :: c in s ==> c in ['0', '1', '2', '3', '4', '5', '6', '7', '8', '9']
  }

  ghost predicate Generation(leaf: string, which: string) {
    leaf == "gen-" + which + ".json"
  }

  lemma LeafIs(leaf: string)
    ensures EngineLeaf(leaf) <==> StateFile(leaf)
  {
    hide EngineLeaf, StateFile, MarkerLike, GenerationLike, IsMarker, IsGeneration;
    MarkerLeaf(leaf);
    GenerationLeaf(leaf);
    PlainLeaves(leaf);
  }

  lemma PlainLeaves(leaf: string)
    ensures EngineLeaf(leaf) <==>
            leaf == "current.json" || leaf == "baseline.json" || MarkerLike(leaf) || GenerationLike(leaf)
    ensures StateFile(leaf) <==>
            leaf == "current.json" || leaf == "baseline.json" || IsMarker(leaf) || IsGeneration(leaf)
  {
    hide Digits, StartsWith, EndsWith, Number, Generation;
  }

  predicate MarkerLike(leaf: string) {
    StartsWith(leaf, ENGINE_MARKER) && Digits(leaf[|ENGINE_MARKER|..])
  }

  predicate GenerationLike(leaf: string) {
    StartsWith(leaf, "gen-") && EndsWith(leaf, ".json")
  }

  ghost predicate IsMarker(leaf: string) {
    exists digits: string :: Number(digits) && leaf == "current.json.rev-" + digits
  }

  ghost predicate IsGeneration(leaf: string) {
    exists which: string :: Generation(leaf, which)
  }

  lemma DigitsAre(s: string)
    ensures Digits(s) <==> Number(s)
  {
    if Digits(s) {
      forall c | c in s ensures c in ['0', '1', '2', '3', '4', '5', '6', '7', '8', '9'] {
        var i :| 0 <= i < |s| && s[i] == c;
        Digit(c);
      }
    }
    if Number(s) {
      forall i | 0 <= i < |s| ensures '0' <= s[i] <= '9' {
        Digit(s[i]);
        assert s[i] in s;
      }
    }
  }

  lemma Digit(c: char)
    ensures '0' <= c <= '9' <==> c in ['0', '1', '2', '3', '4', '5', '6', '7', '8', '9']
  {
    if '0' <= c <= '9' {
      var k := c as int - '0' as int;
      assert c == ['0', '1', '2', '3', '4', '5', '6', '7', '8', '9'][k];
    }
  }

  lemma MarkerLeaf(leaf: string)
    ensures MarkerLike(leaf) <==> IsMarker(leaf)
  {
    var marker := "current.json.rev-";
    assert ENGINE_MARKER == marker;
    if MarkerLike(leaf) {
      var digits := leaf[|marker|..];
      DigitsAre(digits);
      assert leaf == marker + digits;
    }
    if IsMarker(leaf) {
      var digits: string :| Number(digits) && leaf == marker + digits;
      DigitsAre(digits);
      assert leaf[|marker|..] == digits && leaf[..|marker|] == marker;
    }
  }

  lemma GenerationLeaf(leaf: string)
    ensures GenerationLike(leaf) <==> IsGeneration(leaf)
  {
    if GenerationLike(leaf) {
      NoOverlap(leaf);
      var which := leaf[4..|leaf| - 5];
      assert leaf == "gen-" + which + ".json";
      assert Generation(leaf, which);
    }
    if IsGeneration(leaf) {
      var which: string :| Generation(leaf, which);
      assert leaf[..4] == "gen-" && leaf[|leaf| - 5..] == ".json";
    }
  }

  /** The two ends of such a name do not overlap. */
  lemma NoOverlap(leaf: string)
    requires GenerationLike(leaf)
    ensures |leaf| >= 9
  {
    assert forall k :: 0 <= k < 4 ==> leaf[k] == leaf[..4][k] && leaf[k] != '.';
    assert leaf[|leaf| - 5] == leaf[|leaf| - 5..][0] == '.';
  }

  lemma {:induction false} PartsJoin(a: string, b: string)
    requires '/' !in a
    ensures Parts(a + "/" + b) == [a] + Parts(b)
  {
    var s := a + "/" + b;
    if a == "" {
      assert s == "/" + b && s[1..] == b;
    } else {
      PartsJoin(a[1..], b);
      assert s[1..] == a[1..] + "/" + b;
      assert [a[0]] + a[1..] == a;
    }
  }

  lemma {:induction false} OnePart(a: string)
    requires '/' !in a
    ensures Parts(a) == [a]
  {
    if a != "" {
      OnePart(a[1..]);
      assert [a[0]] + a[1..] == a;
    }
  }

  lemma {:induction false} PartsOfPath(parts: seq<string>)
    requires parts != [] && AllClean(parts)
    ensures Parts(Path(parts)) == parts && '\\' !in Path(parts)
  {
    if |parts| == 1 {
      OnePart(parts[0]);
    } else {
      PartsOfPath(parts[1..]);
      PartsJoin(parts[0], Path(parts[1..]));
      assert parts == [parts[0]] + parts[1..];
    }
  }

  /** No part holds a slash, and none a character the name does not. */
  lemma {:induction false} PartsAreSlashFree(s: string, i: nat)
    requires i < |Parts(s)|
    ensures '/' !in Parts(s)[i] && ('\\' !in s ==> '\\' !in Parts(s)[i])
  {
    if s != "" {
      var rest := Parts(s[1..]);
      if s[0] == '/' {
        if i > 0 {
          PartsAreSlashFree(s[1..], i - 1);
        }
      } else {
        PartsAreSlashFree(s[1..], i);
      }
    }
  }

  lemma PartsAreClean(name: string)
    requires '\\' !in name && forall i :: 0 <= i < |Parts(name)| ==> Plain(Parts(name)[i])
    ensures AllClean(Parts(name))
  {
    forall i | 0 <= i < |Parts(name)| ensures Clean(Parts(name)[i]) {
      PartsAreSlashFree(name, i);
    }
  }

  /** A server file's own parts: a secret's two, or just itself. */
  lemma FileParts(f: string) returns (parts: seq<string>)
    requires f in SERVER_FILES
    ensures parts != [] && AllClean(parts) && Path(parts) == f
  {
    assert f == "secrets/jwt_secret" || f == "secrets/vapid_private" || f == "secrets/pin_hashes.json"
           || f == "roster.toml"
        || f == "push_subscriptions.json" || f == "push_subs_v2_migrated" || f == "alarm_subscriptions.json";
    hide *;
    if f == "secrets/jwt_secret" {
      JwtIsClean();
      parts := SecretParts("jwt_secret");
    } else if f == "secrets/vapid_private" {
      VapidIsClean();
      parts := SecretParts("vapid_private");
    } else if f == "secrets/pin_hashes.json" {
      PinsAreClean();
      parts := SecretParts("pin_hashes.json");
    } else {
      RosterIsClean();
      PushIsClean();
      MigratedIsClean();
      AlarmIsClean();
      OnePath(f);
      parts := [f];
    }
  }

  lemma JwtIsClean()
    ensures Clean("jwt_secret") && "secrets/" + "jwt_secret" == "secrets/jwt_secret"
  {
    Cleaned("jwt_secret");
  }

  lemma VapidIsClean()
    ensures Clean("vapid_private") && "secrets/" + "vapid_private" == "secrets/vapid_private"
  {
    Cleaned("vapid_private");
  }

  lemma PinsAreClean()
    ensures Clean("pin_hashes.json") && "secrets/" + "pin_hashes.json" == "secrets/pin_hashes.json"
  {
    Cleaned("pin_hashes.json");
  }

  lemma RosterIsClean()
    ensures Clean("roster.toml")
  {
    Cleaned("roster.toml");
  }

  lemma PushIsClean()
    ensures Clean("push_subscriptions.json")
  {
    Cleaned("push_subscriptions.json");
  }

  lemma MigratedIsClean()
    ensures Clean("push_subs_v2_migrated")
  {
    Cleaned("push_subs_v2_migrated");
  }

  lemma AlarmIsClean()
    ensures Clean("alarm_subscriptions.json")
  {
    Cleaned("alarm_subscriptions.json");
  }

  lemma Cleaned(s: string)
    requires |s| > 2 && forall i :: 0 <= i < |s| ==> s[i] != '/' && s[i] != '\\'
    ensures Clean(s)
  {
  }

  lemma SecretParts(b: string) returns (parts: seq<string>)
    requires Clean(b)
    ensures parts != [] && AllClean(parts) && Path(parts) == "secrets/" + b
  {
    parts := ["secrets", b];
    assert parts[1..] == [b];
    assert "secrets" + "/" + b == "secrets/" + b;
  }

  lemma OnePath(f: string)
    requires Clean(f)
    ensures AllClean([f]) && Path([f]) == f
  {
  }

  /** Exactly the names a band archive may hold: a server file by its path, a file in a server
      folder, an engine state file, each a plain relative path. */
  lemma AllowedNames(name: string)
    ensures ItemOf(name).Some? <==> IsServerFile(name) || IsInServerFolder(name) || IsEngineFile(name)
  {
    hide *;
    if ItemOf(name).Some? {
      TakenNames(name);
    }
    if IsServerFile(name) {
      ServerFileIsTaken(name);
    }
    if IsInServerFolder(name) {
      FolderFileIsTaken(name);
    }
    if IsEngineFile(name) {
      EngineFileIsTaken(name);
    }
  }

  lemma ServerFileIsTaken(name: string)
    requires IsServerFile(name)
    ensures ItemOf(name).Some?
  {
    hide *;
    var f := FileNamed(name);
    var parts := FileParts(f);
    PartsOf("server", parts, name);
    TakenAsFile(name, parts);
  }

  lemma FileNamed(name: string) returns (f: string)
    requires IsServerFile(name)
    ensures f in SERVER_FILES && name == "server" + "/" + f && Clean("server")
  {
    hide IsListedFile;
    f :| IsListedFile(f) && name == "server/" + f;
    ListsAre(f);
    Underneath(f);
  }

  lemma Underneath(f: string)
    ensures "server/" + f == "server" + "/" + f && Clean("server")
  {
    Cleaned("server");
  }

  lemma TakenAsFile(name: string, parts: seq<string>)
    requires Parts(name) == ["server"] + parts && Parts(name)[1..] == parts && parts != [] && '\\' !in name
    requires (forall i :: 0 <= i < |Parts(name)| ==> Plain(Parts(name)[i])) && Path(parts) in SERVER_FILES
    ensures ItemOf(name).Some?
  {
    hide Parts, Path, Plain, EngineLeaf;
  }

  lemma FolderFileIsTaken(name: string)
    requires IsInServerFolder(name)
    ensures ItemOf(name).Some?
  {
    hide IsListedFolder;
    var d: string, rest: seq<string> :| IsListedFolder(d) && rest != [] && AllClean(rest)
      && name == "server/" + (d + "/" + Path(rest));
    ListsAre(d);
    FolderIsClean(d);
    var parts := [d] + rest;
    assert parts[1..] == rest;
    assert Path(parts) == d + "/" + Path(rest);
    assert name == "server" + "/" + Path(parts);
    hide Path;
    PartsOf("server", parts, name);
    hide Parts;
    assert Parts(name)[1] == d;
  }

  lemma EngineFileIsTaken(name: string)
    requires IsEngineFile(name)
    ensures ItemOf(name).Some?
  {
    hide *;
    var leaf := EngineNamed(name);
    OnePath(leaf);
    PartsOf("engine", [leaf], name);
    TakenAsEngine(name, leaf);
  }

  lemma EngineNamed(name: string) returns (leaf: string)
    requires IsEngineFile(name)
    ensures EngineLeaf(leaf) && Clean(leaf) && name == "engine" + "/" + leaf && Clean("engine")
  {
    hide StateFile, EngineLeaf;
    leaf :| StateFile(leaf) && Clean(leaf) && name == "engine/" + leaf;
    LeafIs(leaf);
    Cleaned("engine");
    assert "engine/" + leaf == "engine" + "/" + leaf;
  }

  lemma TakenAsEngine(name: string, leaf: string)
    requires Parts(name) == ["engine"] + [leaf] && '\\' !in name && EngineLeaf(leaf)
    requires forall i :: 0 <= i < |Parts(name)| ==> Plain(Parts(name)[i])
    ensures ItemOf(name).Some?
  {
    hide Parts, Path, Plain, EngineLeaf;
    assert Parts(name)[0] == "engine" && "engine"[0] != "server"[0];
  }

  lemma FolderIsClean(d: string)
    requires d in SERVER_FOLDERS
    ensures Clean(d)
  {
  }

  /** A root and clean parts under it. */
  lemma PartsOf(root: string, parts: seq<string>, name: string)
    requires parts != [] && AllClean(parts) && Clean(root) && name == root + "/" + Path(parts)
    ensures Parts(name) == [root] + parts && '\\' !in name && Parts(name)[1..] == parts
    ensures forall i :: 0 <= i < |Parts(name)| ==> Plain(Parts(name)[i])
  {
    PartsOfPath(parts);
    PartsJoin(root, Path(parts));
  }

  lemma TakenNames(name: string)
    requires ItemOf(name).Some?
    ensures IsServerFile(name) || IsInServerFolder(name) || IsEngineFile(name)
  {
    hide IsListedFile, IsListedFolder;
    var parts := Parts(name);
    PathOfParts(name);
    PartsAreClean(name);
    SplitPath(parts);
    if parts[0] == "server" {
      if Path(parts[1..]) in SERVER_FILES {
        ListsAre(Path(parts[1..]));
        assert name == "server/" + Path(parts[1..]);
      } else {
        SplitPath(parts[1..]);
        assert parts[1..][1..] == parts[2..];
        assert AllClean(parts[2..]);
        ListsAre(parts[1]);
        assert name == "server/" + (parts[1] + "/" + Path(parts[2..]));
      }
    } else {
      assert parts[1..] == [parts[1]];
      assert name == "engine/" + parts[1];
      LeafIs(parts[1]);
    }
  }

  // ----- two members never claim the same place

  lemma {:induction false} SplitPath(parts: seq<string>)
    requires parts != []
    ensures |parts| > 1 ==> Path(parts) == parts[0] + "/" + Path(parts[1..])
    ensures |parts| == 1 ==> Path(parts) == parts[0]
  {
  }

  lemma NoFileIsAFolder(item: string)
    requires item in SERVER_FILES
    ensures item !in SERVER_FOLDERS
  {
    assert SERVER_FILES[0][0] == 's' && SERVER_FILES[0][1] == 'e';
    assert item[0] == 's' ==> item[1] == 'e';
    assert |item| > 14 || item == "roster.toml";
  }

  /** Names that replace the same thing at the same place are the same name, so no member of
      an archive is lost behind another. */
  lemma NamesStayApart(a: string, b: string)
    requires ItemOf(a).Some? && ItemOf(b).Some? && ItemOf(a) == ItemOf(b) && Inner(a) == Inner(b)
    ensures a == b
  {
    PathOfParts(a);
    PathOfParts(b);
    var x, y := Parts(a), Parts(b);
    match ItemOf(a).value {
      case Engine =>
        assert x == [x[0]] + x[1..] && y == [y[0]] + y[1..];
      case Item(item) =>
        if item in SERVER_FOLDERS {
          if item in SERVER_FILES {
            NoFileIsAFolder(item);
          }
          assert x == [x[0], x[1]] + x[2..] && y == [y[0], y[1]] + y[2..];
        } else {
          SplitPath(x);
          SplitPath(y);
        }
    }
  }

  // ----- the check

  datatype Info = Info(name: string, folder: bool, link: bool, size: nat)

  function Stripped(name: string): string {
    if name != "" && name[|name| - 1] == '/' then Stripped(name[..|name| - 1]) else name
  }

  predicate Allowed(info: Info) {
    if info.folder then ItemOf(Stripped(info.name) + "/x").Some?
    else !info.link && info.size <= 0x400_0000 && ItemOf(info.name).Some?
  }

  function Files(infos: seq<Info>): seq<string> {
    if infos == [] then []
    else Files(infos[..|infos| - 1]) + if infos[|infos| - 1].folder then [] else [infos[|infos| - 1].name]
  }

  ghost predicate Distinct(names: seq<string>) {
    forall i, j :: 0 <= i < j < |names| ==> names[i] != names[j]
  }

  ghost predicate Acceptable(infos: seq<Info>) {
    && |infos| <= 10000 && (forall i :: 0 <= i < |infos| ==> Allowed(infos[i]))
    && Distinct(Files(infos)) && "engine/current.json" in Files(infos)
  }

  lemma {:induction false} FilesGrow(infos: seq<Info>, n: nat)
    requires n <= |infos|
    ensures |Files(infos[..n])| <= |Files(infos)| && Files(infos)[..|Files(infos[..n])|] == Files(infos[..n])
    decreases |infos|
  {
    if n < |infos| {
      var short := infos[..|infos| - 1];
      FilesGrow(short, n);
      assert short[..n] == infos[..n];
    } else {
      assert infos[..n] == infos;
    }
  }

  lemma RepeatStays(infos: seq<Info>, n: nat)
    requires n <= |infos| && !Distinct(Files(infos[..n]))
    ensures !Distinct(Files(infos))
  {
    FilesGrow(infos, n);
    var some, all := Files(infos[..n]), Files(infos);
    var i, j :| 0 <= i < j < |some| && some[i] == some[j];
    assert all[i] == some[i] && all[j] == some[j];
  }

  /** The file members, or nothing when any member refuses the archive. */
  method Check(infos: seq<Info>) returns (files: Option<seq<string>>)
    ensures files.Some? <==> Acceptable(infos)
    ensures files.Some? ==> files.value == Files(infos)
  {
    hide ItemOf, Stripped;
    if |infos| > MAX_MEMBERS {
      return None;
    }
    var names: set<string>, out: seq<string> := {}, [];
    var i := 0;
    while i < |infos|
      invariant 0 <= i <= |infos|
      invariant out == Files(infos[..i]) && (forall n :: n in names <==> n in out) && Distinct(out)
      invariant forall k :: 0 <= k < i ==> Allowed(infos[k])
    {
      var info := infos[i];
      assert infos[..i + 1][..i] == infos[..i] && infos[..i + 1][i] == info;
      if info.folder {
        if ItemOf(Stripped(info.name) + "/x").None? {
          assert !Allowed(infos[i]);
          return None;
        }
      } else {
        if info.name in names {
          Repeated(out, info.name);
          RepeatStays(infos, i + 1);
          return None;
        }
        if info.link || info.size > MAX_MEMBER || ItemOf(info.name).None? {
          assert !Allowed(infos[i]);
          return None;
        }
        names, out := names + {info.name}, out + [info.name];
      }
      i := i + 1;
    }
    assert infos[..i] == infos;
    if CURRENT !in names {
      return None;
    }
    return Some(out);
  }

  lemma Repeated(out: seq<string>, name: string)
    requires name in out
    ensures !Distinct(out + [name])
  {
    var i :| 0 <= i < |out| && out[i] == name;
    var all := out + [name];
    assert all[i] == all[|out|];
  }
}
