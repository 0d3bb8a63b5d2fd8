/**
 * Write governance over a house tree: one decision function, and a separately
 * written after-check that must agree with it. Paths are resolved relative
 * paths with forward slashes.
 */
module Governance {
  import opened Text

  const PROTECTED: seq<string> := [
    "AGENTS.md", "CLAUDE.md", "context/", "knowledge/", "tasks/", "reminders/", "tags/", "graph/",
    "projects/", "archive/", "scripts/", ".amore/", ".grok/", ".claude/", "instruments/"]

  const WRITABLE: seq<string> := ["inbox/captures/", "forge/"]

  const LEGACY_CHARTER: set<string> := {"lucerna.enable.json", "governance.user.toml"}

  const RUNTIME_STATE: set<string> :=
    {"health.json", "state.json", "log", "notifications.jsonl", "daemon.pid", "halt", "wake", "sleep"}

  const INSTRUMENTS: string := "instruments/"
  const LUCERNA: string := "lucerna/"

  datatype Lists = Lists(protected: seq<string>, writable: seq<string>, userExtra: seq<string>)

  const DEFAULT: Lists := Lists(PROTECTED, WRITABLE, [])

  /** The lists hold the shipped patterns plus exactly the user's, in both roles; nothing widens `writable`. */
  ghost predicate IsMerge(extra: seq<string>, lists: Lists) {
    && lists.writable == WRITABLE
    && PROTECTED <= lists.protected
    && (forall p :: p in lists.userExtra <==> exists e :: e in extra && Slashes(e) == p)
    && (forall p :: p in lists.protected <==> p in PROTECTED || p in lists.userExtra)
  }

  method MergeGovernanceLists(extra: seq<string>) returns (lists: Lists)
    ensures IsMerge(extra, lists)
    ensures forall i, j :: 0 <= i < j < |lists.userExtra| ==> lists.userExtra[i] != lists.userExtra[j]
  {
    var protected, userExtra := PROTECTED, [];
    for i := 0 to |extra|
      invariant PROTECTED <= protected
      invariant forall p :: p in userExtra <==> exists e :: e in extra[..i] && Slashes(e) == p
      invariant forall p :: p in protected <==> p in PROTECTED || p in userExtra
      invariant forall i, j :: 0 <= i < j < |userExtra| ==> userExtra[i] != userExtra[j]
    {
      var norm := Slashes(extra[i]);
      assert extra[..i + 1] == extra[..i] + [extra[i]];
      if norm !in userExtra {
        userExtra := userExtra + [norm];
      }
      if norm !in protected {
        protected := protected + [norm];
      }
    }
    assert extra[..|extra|] == extra;
    lists := Lists(protected, WRITABLE, userExtra);
  }

  // ----- The decision -------------------------------------------------------

  function RelFromHouse(rel: string): Option<string> {
    if ".." <= rel then None else Some(rel)
  }

  predicate EndsWith(s: string, suffix: string) {
    |suffix| <= |s| && s[|s| - |suffix|..] == suffix
  }

  predicate Matches(rel: string, pattern: string) {
    if EndsWith(pattern, "/") then rel == pattern[..|pattern| - 1] || pattern <= rel
    else rel == pattern || EndsWith(rel, "/" + pattern)
  }

  predicate MatchesAny(rel: string, patterns: seq<string>) {
    exists p :: p in patterns && Matches(rel, p)
  }

  predicate IsProtectedPath(path: string, lists: Lists) {
    match RelFromHouse(path)
    case None => true
    case Some(rel) => rel == "" || MatchesAny(rel, lists.protected)
  }

  function RuntimeBasename(rel: string): Option<string> {
    if !(INSTRUMENTS + LUCERNA <= rel) then None
    else
      var rest := rel[|INSTRUMENTS + LUCERNA|..];
      if rest == "" || '/' in rest then None else Some(rest)
  }

  predicate IsRuntimeArtifact(name: string) {
    || ("log." <= name && Digits(name[4..]))
    || EndsWith(name, ".tmp")
    || "draft-" <= name
  }

  predicate IsLucernaRuntimePath(path: string) {
    match RelFromHouse(path)
    case None => false
    case Some(rel) =>
      match RuntimeBasename(rel)
      case None => false
      case Some(name) => name !in LEGACY_CHARTER && (name in RUNTIME_STATE || IsRuntimeArtifact(name))
  }

  datatype WriteDecision = WriteDecision(allowed: bool, residual: bool, userExtra: bool, protected: bool)

  /** User extras deny, then the runtime residual is allowed, then protected, then writable. */
  function Decide(path: string, lists: Lists): WriteDecision {
    match RelFromHouse(path)
    case None => WriteDecision(false, false, false, true)
    case Some(rel) =>
      if MatchesAny(rel, lists.userExtra) then WriteDecision(false, false, true, true)
      else if IsLucernaRuntimePath(path) then WriteDecision(true, true, false, false)
      else if IsProtectedPath(path, lists) then WriteDecision(false, false, false, true)
      else WriteDecision(MatchesAny(rel, lists.writable), false, false, false)
  }

  predicate CanWrite(path: string, lists: Lists) {
    Decide(path, lists).allowed
  }

  /** The after-check, written separately from the guard. */
  predicate IsOutOfBoundsWrite(path: string, lists: Lists) {
    if CanWrite(path, lists) then false
    else if IsProtectedPath(path, lists) then true
    else if IsLucernaRuntimePath(path) then false
    else true
  }

  // ----- What may be written ------------------------------------------------

  /** A directory pattern covers the directory and everything below it, and nothing else. */
  lemma {:induction false} DirectoryMatch(rel: string, dir: string)
    ensures Matches(rel, dir + "/") <==> rel == dir || exists below :: rel == dir + "/" + below
  {
    var pattern := dir + "/";
    assert EndsWith(pattern, "/") && pattern[..|pattern| - 1] == dir;
    if pattern <= rel {
      assert rel == pattern + rel[|pattern|..];
    }
  }

  /** A file pattern covers the file of that name in any directory, and nothing else. */
  lemma {:induction false} FileMatch(rel: string, name: string)
    requires !EndsWith(name, "/")
    ensures Matches(rel, name) <==> rel == name || exists dir :: rel == dir + "/" + name
  {
    var tail := "/" + name;
    if EndsWith(rel, tail) {
      var dir := rel[..|rel| - |tail|];
      assert rel == dir + tail == dir + "/" + name;
    }
    if exists dir :: rel == dir + "/" + name {
      var dir :| rel == dir + "/" + name;
      assert rel[|rel| - |tail|..] == tail;
    }
  }

  /** The runtime residual: a file directly in the daemon's own directory, one of its state files or artifacts, never a charter. */
  lemma {:induction false} RuntimePathIff(path: string)
    ensures IsLucernaRuntimePath(path) <==>
              exists name ::
                && path == INSTRUMENTS + LUCERNA + name && name != "" && '/' !in name
                && name !in LEGACY_CHARTER && (name in RUNTIME_STATE || IsRuntimeArtifact(name))
  {
    var base := INSTRUMENTS + LUCERNA;
    assert base[0] == 'i';
    if base <= path {
      assert path == base + path[|base|..];
      assert path[0] == 'i';
    }
    if exists name ::
         && path == base + name && name != "" && '/' !in name
         && name !in LEGACY_CHARTER && (name in RUNTIME_STATE || IsRuntimeArtifact(name)) {
      var name :|
        && path == base + name && name != "" && '/' !in name
        && name !in LEGACY_CHARTER && (name in RUNTIME_STATE || IsRuntimeArtifact(name));
      assert path[|base|..] == name;
    }
  }

  /** The artifacts are rotated logs, temporary files and drafts. */
  lemma {:induction false} ArtifactIff(name: string)
    ensures IsRuntimeArtifact(name) <==>
              || (exists n :: Digits(n) && name == "log." + n)
              || (exists stem :: name == stem + ".tmp")
              || (exists rest :: name == "draft-" + rest)
  {
    if "log." <= name {
      assert name == "log." + name[4..];
    }
    if EndsWith(name, ".tmp") {
      assert name == name[..|name| - 4] + ".tmp";
    }
    if "draft-" <= name {
      assert name == "draft-" + name[6..];
    }
    if exists stem :: name == stem + ".tmp" {
      var stem :| name == stem + ".tmp";
      assert name[|name| - 4..] == ".tmp";
    }
  }

  /**
   * A path may be written exactly when it lies inside the house, no user pattern covers it, and it is
   * the runtime residual or is covered by a writable pattern and by no protected one.
   */
  lemma {:induction false} WritableIff(path: string, lists: Lists)
    ensures CanWrite(path, lists) <==>
              && !(".." <= path)
              && (forall q :: q in lists.userExtra ==> !Matches(path, q))
              && (|| IsLucernaRuntimePath(path)
                  || (&& path != ""
                      && (forall q :: q in lists.protected ==> !Matches(path, q))
                      && (exists q :: q in lists.writable && Matches(path, q))))
  {
  }

  lemma {:induction false} SlashlessMatch(path: string, pattern: string)
    requires '/' !in path
    ensures EndsWith(pattern, "/") ==> (Matches(path, pattern) <==> path == pattern[..|pattern| - 1])
    ensures !EndsWith(pattern, "/") ==> (Matches(path, pattern) <==> path == pattern)
  {
    if EndsWith(pattern, "/") && pattern <= path {
      BelowHasSlash(path, pattern);
    }
    if EndsWith(path, "/" + pattern) {
      InDirectoryHasSlash(path, pattern);
    }
  }

  lemma {:induction false} BelowHasSlash(path: string, pattern: string)
    requires EndsWith(pattern, "/") && pattern <= path
    ensures '/' in path
  {
    assert pattern[|pattern| - 1..][0] == '/';
    assert path[|pattern| - 1] == '/';
  }

  lemma {:induction false} InDirectoryHasSlash(path: string, name: string)
    requires EndsWith(path, "/" + name)
    ensures '/' in path
  {
    assert path[|path| - |"/" + name|..][0] == '/';
  }

  /** At the top of the house nothing may be written by default but the forge itself. */
  lemma {:induction false} TopIsClosed(path: string)
    requires '/' !in path
    ensures CanWrite(path, DEFAULT) ==> path == "forge"
  {
    WritableIff(path, DEFAULT);
    TopIsNotRuntime(path);
    OnlyForge(path);
  }

  lemma {:induction false} TopIsNotRuntime(path: string)
    requires '/' !in path
    ensures !IsLucernaRuntimePath(path)
  {
    if INSTRUMENTS + LUCERNA <= path {
      UnderInstruments(path);
    }
  }

  lemma {:induction false} UnderInstruments(path: string)
    requires INSTRUMENTS + LUCERNA <= path
    ensures '/' in path
  {
    assert path[11] == (INSTRUMENTS + LUCERNA)[11] == '/';
  }

  lemma {:induction false} OnlyForge(path: string)
    requires '/' !in path
    ensures forall q :: q in WRITABLE && Matches(path, q) ==> path == "forge"
  {
    SlashlessMatch(path, WRITABLE[0]);
    SlashlessMatch(path, WRITABLE[1]);
    assert EndsWith(WRITABLE[0], "/") && EndsWith(WRITABLE[1], "/");
    assert WRITABLE[0][..|WRITABLE[0]| - 1][5] == '/';
    assert WRITABLE[1][..|WRITABLE[1]| - 1] == "forge";
  }

  /** Below the forge everything may be written by default but files named as the house's instructions. */
  lemma {:induction false} ForgeIsOpen(below: string)
    ensures CanWrite("forge/" + below, DEFAULT) <==>
              !EndsWith("forge/" + below, "/AGENTS.md") && !EndsWith("forge/" + below, "/CLAUDE.md")
  {
    var path := "forge/" + below;
    WritableIff(path, DEFAULT);
    ForgeMatches(below);
    NotRuntime(path);
    OnlyInstructions(path);
  }

  lemma {:induction false} OnlyInstructions(path: string)
    requires path != "" && path[0] == 'f'
    ensures (forall q :: q in PROTECTED ==> !Matches(path, q)) <==>
              !EndsWith(path, "/AGENTS.md") && !EndsWith(path, "/CLAUDE.md")
  {
    ProtectedInForge(path);
    assert PROTECTED[0] == "AGENTS.md" && PROTECTED[1] == "CLAUDE.md";
  }

  lemma {:induction false} ForgeMatches(below: string)
    ensures ("forge/" + below)[0] == 'f' && exists q :: q in WRITABLE && Matches("forge/" + below, q)
  {
    assert EndsWith(WRITABLE[1], "/") && WRITABLE[1] <= "forge/" + below;
    assert WRITABLE[1] in WRITABLE && Matches("forge/" + below, WRITABLE[1]);
  }

  lemma {:induction false} NotRuntime(path: string)
    requires path != "" && path[0] != 'i'
    ensures !IsLucernaRuntimePath(path)
  {
    assert (INSTRUMENTS + LUCERNA)[0] == 'i';
  }

  lemma {:induction false} ProtectedInForge(path: string)
    requires path != "" && path[0] == 'f'
    ensures forall q :: q in PROTECTED && q != "AGENTS.md" && q != "CLAUDE.md" ==> !Matches(path, q)
    ensures Matches(path, "AGENTS.md") <==> EndsWith(path, "/AGENTS.md")
    ensures Matches(path, "CLAUDE.md") <==> EndsWith(path, "/CLAUDE.md")
  {
    ProtectedDirectories();
    forall i | 2 <= i < |PROTECTED|
      ensures !Matches(path, PROTECTED[i])
    {
      OtherFirst(path, PROTECTED[i]);
    }
    assert "/" + "AGENTS.md" == "/AGENTS.md" && "/" + "CLAUDE.md" == "/CLAUDE.md";
    assert !EndsWith("AGENTS.md", "/") && !EndsWith("CLAUDE.md", "/");
  }

  lemma {:induction false} ProtectedDirectories()
    ensures forall i :: 2 <= i < |PROTECTED| ==>
              |PROTECTED[i]| > 1 && PROTECTED[i][|PROTECTED[i]| - 1] == '/' && PROTECTED[i][0] != 'f'
  {
  }

  lemma {:induction false} OtherFirst(path: string, pattern: string)
    requires path != "" && |pattern| > 1 && pattern[|pattern| - 1] == '/' && path[0] != pattern[0]
    ensures !Matches(path, pattern)
  {
    assert EndsWith(pattern, "/");
    assert pattern[..|pattern| - 1][0] == pattern[0];
  }

  // ----- The two agree ------------------------------------------------------

  lemma {:induction false} MergedMatches(rel: string, extra: seq<string>, lists: Lists)
    requires IsMerge(extra, lists)
    ensures MatchesAny(rel, lists.protected) <==> MatchesAny(rel, PROTECTED) || MatchesAny(rel, lists.userExtra)
  {
  }

  /** For any lists at all, the two disagree on exactly the paths the residual would admit but an unprotected extra denies. */
  lemma {:induction false} WhenTheyDisagree(path: string, lists: Lists)
    ensures IsOutOfBoundsWrite(path, lists) != !CanWrite(path, lists)
       <==> IsLucernaRuntimePath(path) && MatchesAny(path, lists.userExtra) && !IsProtectedPath(path, lists)
  {
  }

  /** Such lists exist, but merging never builds them. */
  lemma {:induction false} UnmergedListsDisagree()
    ensures
      var lists := Lists([], WRITABLE, ["log"]);
      !CanWrite("instruments/lucerna/log", lists) && !IsOutOfBoundsWrite("instruments/lucerna/log", lists)
  {
    var path := "instruments/lucerna/log";
    var lists := Lists([], WRITABLE, ["log"]);
    assert path[0] == 'i' && RelFromHouse(path) == Some(path);
    assert RuntimeBasename(path) == Some("log");
    assert "log" in RUNTIME_STATE && |"log"| < |"governance.user.toml"| && |"log"| < |"lucerna.enable.json"|;
    assert IsLucernaRuntimePath(path);
    assert !IsProtectedPath(path, lists);
    assert EndsWith(path, "/" + "log");
    assert "log" in lists.userExtra && Matches(path, "log");
    WhenTheyDisagree(path, lists);
  }

  /** For lists built by merging, the after-check flags exactly what the guard denies. */
  lemma {:induction false} AfterCheckIsTheGuard(path: string, extra: seq<string>, lists: Lists)
    requires IsMerge(extra, lists)
    ensures IsOutOfBoundsWrite(path, lists) <==> !CanWrite(path, lists)
  {
    WhenTheyDisagree(path, lists);
    if RelFromHouse(path).Some? {
      MergedMatches(path, extra, lists);
    }
  }

  /** User extras only subtract: a path is writable iff it is by default and no extra matches it. */
  lemma {:induction false} ExtrasOnlyDeny(path: string, extra: seq<string>, lists: Lists)
    requires IsMerge(extra, lists)
    ensures CanWrite(path, lists) <==> CanWrite(path, DEFAULT) && !MatchesAny(path, lists.userExtra)
  {
    MergedMatches(path, extra, lists);
    assert !MatchesAny(path, DEFAULT.userExtra);
  }

  lemma {:induction false} MoreExtrasNeverWiden(path: string, extra: seq<string>, more: seq<string>, a: Lists, b: Lists)
    requires IsMerge(extra, a) && IsMerge(extra + more, b)
    ensures CanWrite(path, b) ==> CanWrite(path, a)
  {
    ExtrasOnlyDeny(path, extra, a);
    ExtrasOnlyDeny(path, extra + more, b);
    if MatchesAny(path, a.userExtra) {
      var p :| p in a.userExtra && Matches(path, p);
      var e :| e in extra && Slashes(e) == p;
      assert e in extra + more;
      assert p in b.userExtra;
    }
  }

  // ----- The breach report --------------------------------------------------

  datatype Kind = Added | Modified | Porcelain

  datatype Breach = Breach(path: string, kind: Kind)

  type Inventory = seq<(string, int)>

  /** What the inventories say about entry `e` of the later one. */
  function Change(before: map<string, int>, e: (string, int)): Option<Kind> {
    if e.0 !in before then Some(Added) else if before[e.0] != e.1 then Some(Modified) else None
  }

  method DiffInventories(before: map<string, int>, after: Inventory) returns (added: seq<string>, modified: seq<string>)
    ensures forall p :: p in added <==> exists e :: e in after && e.0 == p && Change(before, e) == Some(Added)
    ensures forall p :: p in modified <==> exists e :: e in after && e.0 == p && Change(before, e) == Some(Modified)
    ensures forall e :: e in after ==> (e.0 in added <==> e.0 !in before)
    ensures forall e :: e in after && e.0 in before && before[e.0] != e.1 ==> e.0 in modified
    ensures forall p :: p in modified ==> p in before && exists e :: e in after && e.0 == p && before[p] != e.1
  {
    added, modified := [], [];
    for i := 0 to |after|
      invariant forall p :: p in added <==> exists e :: e in after[..i] && e.0 == p && Change(before, e) == Some(Added)
      invariant forall p :: p in modified <==> exists e :: e in after[..i] && e.0 == p && Change(before, e) == Some(Modified)
    {
      assert after[..i + 1] == after[..i] + [after[i]];
      var (rel, mtime) := after[i];
      if rel !in before {
        added := added + [rel];
      } else if before[rel] != mtime {
        modified := modified + [rel];
      }
    }
    assert after[..|after|] == after;
  }

  /** What follows the last separator when the text is split at each in turn, without overlap. */
  function LastPiece(text: string, separator: string): string
    requires separator != ""
    decreases |text|
  {
    match Find(text, separator)
    case None => text
    case Some(i) => LastPiece(text[i + |separator|..], separator)
  }

  /** Path of a porcelain line: `XY PATH`, or the target of `XY ORIG -> PATH`. */
  function PorcelainPath(line: string): Option<string> {
    if |line| < 4 then None
    else
      var rest := Trim(line[3..]);
      if rest == "" then None
      else if Find(rest, ARROW).Some? then Some(Slashes(LastPiece(rest, ARROW)))
      else Some(Slashes(Unquote(rest)))
  }

  /** A line's path is what follows its status, unquoted. */
  lemma {:induction false} PorcelainPathIs(status: string, path: string)
    requires |status| == 3 && Trimmed(path) && Free(path, '>')
    ensures PorcelainPath(status + path) == Some(Slashes(Unquote(path)))
  {
    assert (status + path)[3..] == path;
    TrimTrimmed(path);
    NoArrow(path);
  }

  /** Of a rename it is the new name. */
  lemma {:induction false} RenamedPathIs(status: string, old_: string, path: string)
    requires |status| == 3 && Trimmed(path) && Free(path, '>') && Trimmed(old_) && Free(old_, '>')
    ensures PorcelainPath(status + (old_ + ARROW + path)) == Some(Slashes(path))
  {
    var rest := old_ + ARROW + path;
    assert (status + rest)[3..] == rest;
    assert rest[0] == old_[0] && rest[|rest| - 1] == path[|path| - 1];
    TrimTrimmed(rest);
    OneArrow(old_, path);
    assert rest[|old_| + |ARROW|..] == path;
    NoArrow(path);
    assert LastPiece(path, ARROW) == path;
    assert LastPiece(rest, ARROW) == path;
  }

  predicate NamedIn(path: string, lines: seq<string>) {
    path != "" && exists l :: l in lines && PorcelainPath(l) == Some(path)
  }

  ghost predicate ChangedAs(path: string, before: map<string, int>, after: Inventory, kind: Kind) {
    exists e :: e in after && e.0 == path && Change(before, e) == Some(kind)
  }

  /**
   * Reports exactly the non-writable paths among those added, modified or named
   * by porcelain; a path already reported is not reported again for porcelain.
   */
  method CheckGovernanceBreaches(before: map<string, int>, after: Inventory, lists: Lists, porcelain: seq<string>)
    returns (breaches: seq<Breach>)
    ensures forall b :: b in breaches ==> IsOutOfBoundsWrite(b.path, lists)
    ensures forall b :: b in breaches ==>
              if b.kind == Porcelain then NamedIn(b.path, porcelain) else ChangedAs(b.path, before, after, b.kind)
    ensures forall p, k :: k != Porcelain && ChangedAs(p, before, after, k) && IsOutOfBoundsWrite(p, lists)
              ==> Breach(p, k) in breaches
    ensures forall p :: NamedIn(p, porcelain) && IsOutOfBoundsWrite(p, lists) ==> exists k :: Breach(p, k) in breaches
  {
    var added, modified := DiffInventories(before, after);
    breaches := [];
    for i := 0 to |added|
      invariant forall b :: b in breaches <==> b.kind == Added && b.path in added[..i] && IsOutOfBoundsWrite(b.path, lists)
    {
      assert added[..i + 1] == added[..i] + [added[i]];
      if IsOutOfBoundsWrite(added[i], lists) {
        breaches := breaches + [Breach(added[i], Added)];
      }
    }
    assert added[..|added|] == added;
    ghost var first := breaches;
    for i := 0 to |modified|
      invariant forall b :: b in breaches <==>
                  || b in first
                  || (b.kind == Modified && b.path in modified[..i] && IsOutOfBoundsWrite(b.path, lists))
    {
      assert modified[..i + 1] == modified[..i] + [modified[i]];
      if IsOutOfBoundsWrite(modified[i], lists) {
        breaches := breaches + [Breach(modified[i], Modified)];
      }
    }
    assert modified[..|modified|] == modified;
    ghost var second := breaches;
    breaches := AddPorcelain(breaches, lists, porcelain);
    forall p, k | k != Porcelain && ChangedAs(p, before, after, k) && IsOutOfBoundsWrite(p, lists)
      ensures Breach(p, k) in breaches
    {
      assert Breach(p, k) in second;
    }
  }

  method AddPorcelain(found: seq<Breach>, lists: Lists, porcelain: seq<string>) returns (breaches: seq<Breach>)
    ensures forall b :: b in found ==> b in breaches
    ensures forall b :: b in breaches && b !in found ==>
              b.kind == Porcelain && NamedIn(b.path, porcelain) && IsOutOfBoundsWrite(b.path, lists)
    ensures forall p :: NamedIn(p, porcelain) && IsOutOfBoundsWrite(p, lists) ==> exists k :: Breach(p, k) in breaches
  {
    breaches := found;
    for i := 0 to |porcelain|
      invariant forall b :: b in found ==> b in breaches
      invariant forall b :: b in breaches && b !in found ==>
                  b.kind == Porcelain && NamedIn(b.path, porcelain) && IsOutOfBoundsWrite(b.path, lists)
      invariant forall p :: NamedIn(p, porcelain[..i]) && IsOutOfBoundsWrite(p, lists) ==> exists k :: Breach(p, k) in breaches
    {
      assert porcelain[..i + 1] == porcelain[..i] + [porcelain[i]];
      var path := PorcelainPath(porcelain[i]);
      if path.Some? && path.value != "" && IsOutOfBoundsWrite(path.value, lists) {
        var p := path.value;
        if !(exists b :: b in breaches && b.path == p) {
          breaches := breaches + [Breach(p, Porcelain)];
        }
      }
    }
    assert porcelain[..|porcelain|] == porcelain;
  }
}
