/** Change sets as auto-commit reads them from `git status --porcelain`. */
module Porcelain {
  import opened Text

  const MAX_STATUS_LINES: nat := 200

  // ----- Lines --------------------------------------------------------------

  /** Pieces between newlines; a text with no newline is one piece. */
  function SplitLines(s: string): (r: seq<string>)
    ensures |r| >= 1
  {
    if s == "" then [""]
    else
      var rest := SplitLines(s[1..]);
      if s[0] == '\n' then [""] + rest else [[s[0]] + rest[0]] + rest[1..]
  }

  predicate OneLine(s: string) {
    '\n' !in s
  }

  /** Whole lines only: empty, or ending in a newline. */
  predicate WholeLines(s: string) {
    s == "" || s[|s| - 1] == '\n'
  }

  function Render(lines: seq<string>): string {
    if lines == [] then "" else lines[0] + "\n" + Render(lines[1..])
  }

  lemma {:induction false} SplitFirst(line: string, rest: string)
    requires OneLine(line)
    ensures SplitLines(line + "\n" + rest) == [line] + SplitLines(rest)
  {
    var s := line + "\n" + rest;
    if line == "" {
      assert s[1..] == rest;
    } else {
      assert s[1..] == line[1..] + "\n" + rest;
      SplitFirst(line[1..], rest);
      assert line == [line[0]] + line[1..];
    }
  }

  lemma {:induction false} SplitRender(lines: seq<string>)
    requires forall l :: l in lines ==> OneLine(l)
    ensures SplitLines(Render(lines)) == lines + [""]
  {
    if lines != [] {
      SplitRender(lines[1..]);
      SplitFirst(lines[0], Render(lines[1..]));
      assert lines == [lines[0]] + lines[1..];
    }
  }

  lemma {:induction false} SplitAreOneLine(s: string)
    ensures forall l :: l in SplitLines(s) ==> OneLine(l)
  {
    if s != "" {
      SplitAreOneLine(s[1..]);
      var rest := SplitLines(s[1..]);
      assert rest[0] in rest;
      if s[0] != '\n' {
        assert OneLine([s[0]] + rest[0]);
      }
    }
  }

  // ----- Paths --------------------------------------------------------------

  /** The path of one porcelain line, if it has one: `XY PATH`, or what follows the first arrow. */
  function PathOf(line: string): Option<string> {
    var rest := if |line| < 3 then "" else Trim(line[3..]);
    if Blank(line) || rest == "" then None
    else
      var arrow := Find(rest, ARROW);
      var path := Slashes(Unquote(if arrow.Some? then rest[arrow.value + |ARROW|..] else rest));
      if path == "" then None else Some(path)
  }

  /** A line's path is what follows its status, unquoted. */
  lemma {:induction false} PathIs(status: string, path: string)
    requires |status| == 3 && Trimmed(path) && Free(path, '>')
    ensures PathOf(status + path) == if Unquote(path) == "" then None else Some(Slashes(Unquote(path)))
  {
    assert (status + path)[3..] == path;
    TrimTrimmed(path);
    NoArrow(path);
    NotBlank(status, path);
  }

  /** Of a rename it is the new name. */
  lemma {:induction false} RenamedPathIs(status: string, old_: string, path: string)
    requires |status| == 3 && Trimmed(path) && Free(path, '>') && Trimmed(old_) && Free(old_, '>')
    ensures PathOf(status + (old_ + ARROW + path)) == if Unquote(path) == "" then None else Some(Slashes(Unquote(path)))
  {
    var rest := old_ + ARROW + path;
    assert (status + rest)[3..] == rest;
    assert rest[0] == old_[0] && rest[|rest| - 1] == path[|path| - 1];
    TrimTrimmed(rest);
    OneArrow(old_, path);
    assert rest[|old_| + |ARROW|..] == path;
    NotBlank(status, rest);
  }

  lemma {:induction false} NotBlank(status: string, rest: string)
    requires Trimmed(rest)
    ensures !Blank(status + rest)
  {
    assert (status + rest)[|status|] == rest[0];
  }

  function ListOf(path: Option<string>): seq<string> {
    if path.Some? then [path.value] else []
  }

  function Paths(lines: seq<string>): seq<string> {
    if lines == [] then [] else ListOf(PathOf(lines[0])) + Paths(lines[1..])
  }

  lemma {:induction false} PathsConcat(a: seq<string>, b: seq<string>)
    ensures Paths(a + b) == Paths(a) + Paths(b)
  {
    if a == [] {
      assert a + b == b;
    } else {
      assert (a + b)[1..] == a[1..] + b;
      PathsConcat(a[1..], b);
    }
  }

  lemma {:induction false} PathsSnoc(lines: seq<string>, i: nat)
    requires i < |lines|
    ensures Paths(lines[..i + 1]) == Paths(lines[..i]) + ListOf(PathOf(lines[i]))
  {
    assert lines[..i + 1] == lines[..i] + [lines[i]];
    PathsConcat(lines[..i], [lines[i]]);
    assert Paths([lines[i]]) == ListOf(PathOf(lines[i])) + Paths([]);
  }

  method ParsePorcelainStatus(text: string) returns (files: seq<string>)
    ensures files == Paths(SplitLines(text))
  {
    files := [];
    var lines := SplitLines(text);
    for i := 0 to |lines|
      invariant files == Paths(lines[..i])
    {
      PathsSnoc(lines, i);
      var path := PathOf(lines[i]);
      if path.Some? {
        files := files + [path.value];
      }
    }
    assert lines[..|lines|] == lines;
  }

  const INSTRUMENTS: string := "instruments"
  const NODE_MODULES: string := "node_modules"

  predicate Ignored(file: string) {
    var n := Slashes(file);
    var m := if "./" <= n then n[2..] else n;
    m == INSTRUMENTS || m == NODE_MODULES || INSTRUMENTS + "/" <= m || NODE_MODULES + "/" <= m
  }

  /** Exactly the two directories and what lies below them are ignored. */
  lemma {:induction false} IgnoredIff(file: string)
    requires Free(file, '\\') && !("./" <= file)
    ensures Ignored(file) <==>
              || file == INSTRUMENTS || file == NODE_MODULES
              || (exists below :: file == INSTRUMENTS + "/" + below) || (exists below :: file == NODE_MODULES + "/" + below)
  {
    assert Slashes(file) == file;
    Below(file, INSTRUMENTS + "/");
    Below(file, NODE_MODULES + "/");
  }

  lemma {:induction false} Below(file: string, dir: string)
    ensures dir <= file <==> exists below :: file == dir + below
  {
    if dir <= file {
      assert file == dir + file[|dir|..];
    }
  }

  /** A leading `./` makes no difference. */
  lemma {:induction false} DotSlashIsIgnored(file: string)
    requires Free(file, '\\') && !("./" <= file)
    ensures Ignored("./" + file) == Ignored(file)
  {
    assert Slashes(file) == file;
    assert Slashes("./" + file) == "./" + file && ("./" + file)[2..] == file;
  }

  predicate Eligible(dangerous: string -> bool, file: string) {
    !dangerous(file) && !Ignored(file)
  }

  function FilterDraft(dangerous: string -> bool, files: seq<string>): seq<string> {
    if files == [] then []
    else (if Eligible(dangerous, files[0]) then [files[0]] else []) + FilterDraft(dangerous, files[1..])
  }

  // ----- The filtered change set --------------------------------------------

  /** Carriage returns before newlines dropped. */
  function Unix(s: string): string {
    if s == "" then "" else if |s| >= 2 && s[0] == '\r' && s[1] == '\n' then Unix(s[1..]) else [s[0]] + Unix(s[1..])
  }

  predicate Kept(dangerous: string -> bool, line: string) {
    PathOf(line).Some? && Eligible(dangerous, PathOf(line).value)
  }

  function KeptOf(dangerous: string -> bool, line: string): seq<string> {
    if Kept(dangerous, line) then [line] else []
  }

  function KeptLines(dangerous: string -> bool, lines: seq<string>): seq<string> {
    if lines == [] then [] else KeptOf(dangerous, lines[0]) + KeptLines(dangerous, lines[1..])
  }

  function ChangeSet(dangerous: string -> bool, text: string): seq<string> {
    KeptLines(dangerous, SplitLines(Unix(text)))
  }

  lemma {:induction false} KeptConcat(dangerous: string -> bool, a: seq<string>, b: seq<string>)
    ensures KeptLines(dangerous, a + b) == KeptLines(dangerous, a) + KeptLines(dangerous, b)
  {
    if a == [] {
      assert a + b == b;
    } else {
      assert (a + b)[1..] == a[1..] + b;
      KeptConcat(dangerous, a[1..], b);
    }
  }

  lemma {:induction false} KeptSnoc(dangerous: string -> bool, lines: seq<string>, i: nat)
    requires i < |lines|
    ensures KeptLines(dangerous, lines[..i + 1]) == KeptLines(dangerous, lines[..i]) + KeptOf(dangerous, lines[i])
  {
    assert lines[..i + 1] == lines[..i] + [lines[i]];
    KeptConcat(dangerous, lines[..i], [lines[i]]);
    assert KeptLines(dangerous, [lines[i]]) == KeptOf(dangerous, lines[i]) + KeptLines(dangerous, []);
  }

  lemma {:induction false} KeptWhenFiltered(dangerous: string -> bool, line: string)
    ensures Kept(dangerous, line) <==> PathOf(line).Some? && FilterDraft(dangerous, [PathOf(line).value]) != []
  {
  }

  method FilterPorcelainForDraft(dangerous: string -> bool, text: string) returns (r: string)
    ensures r == Render(ChangeSet(dangerous, text))
  {
    var kept: seq<string> := [];
    var lines := SplitLines(Unix(text));
    for i := 0 to |lines|
      invariant kept == KeptLines(dangerous, lines[..i])
    {
      KeptSnoc(dangerous, lines, i);
      KeptWhenFiltered(dangerous, lines[i]);
      var path := PathOf(lines[i]);
      if path.Some? && FilterDraft(dangerous, [path.value]) != [] {
        kept := kept + [lines[i]];
      }
    }
    assert lines[..|lines|] == lines;
    r := Render(kept);
  }

  /** The filtered text is the kept lines and nothing else: equal texts, and so equal hash inputs, mean equal change sets. */
  lemma {:induction false} FilteredTextIsChangeSet(dangerous: string -> bool, x: string, y: string)
    ensures Render(ChangeSet(dangerous, x)) == Render(ChangeSet(dangerous, y)) <==> ChangeSet(dangerous, x) == ChangeSet(dangerous, y)
  {
    var k, m := ChangeSet(dangerous, x), ChangeSet(dangerous, y);
    ChangesAreOneLine(dangerous, x);
    ChangesAreOneLine(dangerous, y);
    SplitRender(k);
    SplitRender(m);
    assert k == (k + [""])[..|k|] && m == (m + [""])[..|m|];
  }

  lemma {:induction false} ChangesAreOneLine(dangerous: string -> bool, text: string)
    ensures forall l :: l in ChangeSet(dangerous, text) ==> OneLine(l)
  {
    SplitAreOneLine(Unix(text));
    KeptAmong(dangerous, SplitLines(Unix(text)));
  }

  lemma {:induction false} KeptAmong(dangerous: string -> bool, lines: seq<string>)
    ensures forall l :: l in KeptLines(dangerous, lines) <==> l in lines && Kept(dangerous, l)
  {
    if lines != [] {
      KeptAmong(dangerous, lines[1..]);
      assert lines == [lines[0]] + lines[1..];
    }
  }

  // ----- Ignored lines are invisible ----------------------------------------

  /** The first character is a carriage return before a newline. */
  predicate ReturnFirst(s: string) {
    |s| >= 2 && s[0] == '\r' && s[1] == '\n'
  }

  lemma {:induction false} UnixStep(s: string)
    requires s != ""
    ensures Unix(s) == (if ReturnFirst(s) then "" else [s[0]]) + Unix(s[1..])
  {
  }

  lemma {:induction false} UnixConcat(a: string, b: string)
    requires WholeLines(a)
    ensures Unix(a + b) == Unix(a) + Unix(b)
  {
    if a == "" {
      assert a + b == b;
    } else {
      assert (a + b)[1..] == a[1..] + b;
      assert |a| > 1 ==> (a + b)[1] == a[1];
      assert ReturnFirst(a + b) == ReturnFirst(a);
      UnixConcat(a[1..], b);
      UnixStep(a);
      UnixStep(a + b);
      Reassociate(if ReturnFirst(a) then "" else [a[0]], Unix(a[1..]), Unix(b));
    }
  }

  lemma {:induction false} UnixWhole(a: string)
    requires WholeLines(a)
    ensures WholeLines(Unix(a)) && (a != "" ==> Unix(a) != "")
  {
    if |a| > 1 {
      UnixWhole(a[1..]);
    }
  }

  lemma {:induction false} SplitWhole(a: string, b: string)
    requires WholeLines(a)
    ensures |SplitLines(a)| >= 1 && SplitLines(a + b) == SplitLines(a)[..|SplitLines(a)| - 1] + SplitLines(b)
  {
    if a == "" {
      assert a + b == b;
    } else {
      assert (a + b)[1..] == a[1..] + b;
      SplitWhole(a[1..], b);
      if a[0] != '\n' {
        SplitTwo(a[1..]);
      }
    }
  }

  lemma {:induction false} SplitTwo(a: string)
    requires WholeLines(a) && a != ""
    ensures |SplitLines(a)| >= 2
  {
    if a[0] != '\n' {
      SplitTwo(a[1..]);
    }
  }

  lemma {:induction false} ChangeSetConcat(dangerous: string -> bool, a: string, b: string)
    requires WholeLines(a)
    ensures ChangeSet(dangerous, a + b) == ChangeSet(dangerous, a) + ChangeSet(dangerous, b)
  {
    UnixConcat(a, b);
    UnixWhole(a);
    KeptOfWhole(dangerous, Unix(a), Unix(b));
  }

  lemma {:induction false} KeptOfWhole(dangerous: string -> bool, a: string, b: string)
    requires WholeLines(a)
    ensures KeptLines(dangerous, SplitLines(a + b)) == KeptLines(dangerous, SplitLines(a)) + KeptLines(dangerous, SplitLines(b))
  {
    var lines := SplitLines(a);
    var front := lines[..|lines| - 1];
    SplitWhole(a, b);
    SplitWholeAlone(a);
    KeptOfFront(dangerous, front, SplitLines(b));
  }

  lemma {:induction false} KeptOfFront(dangerous: string -> bool, front: seq<string>, more: seq<string>)
    ensures KeptLines(dangerous, front + more) == KeptLines(dangerous, front + [""]) + KeptLines(dangerous, more)
  {
    KeptConcat(dangerous, front, [""]);
    NothingKept(dangerous);
    assert KeptLines(dangerous, front) + [] == KeptLines(dangerous, front);
    KeptConcat(dangerous, front, more);
  }

  lemma {:induction false} SplitWholeAlone(a: string)
    requires WholeLines(a)
    ensures SplitLines(a) == SplitLines(a)[..|SplitLines(a)| - 1] + [""]
  {
    assert a + "" == a;
    SplitWhole(a, "");
  }

  lemma {:induction false} NothingKept(dangerous: string -> bool)
    ensures KeptLines(dangerous, [""]) == []
  {
    assert PathOf("").None?;
    assert KeptOf(dangerous, "") == [];
    assert KeptLines(dangerous, [""]) == KeptOf(dangerous, "") + KeptLines(dangerous, []);
  }

  /** Inserting, or deleting, whole lines none of which is kept changes nothing, wherever they stand. */
  lemma {:induction false} IgnoredLinesAreInvisible(dangerous: string -> bool, a: string, lines: string, b: string)
    requires WholeLines(a) && WholeLines(lines) && ChangeSet(dangerous, lines) == []
    ensures ChangeSet(dangerous, a + lines + b) == ChangeSet(dangerous, a + b)
  {
    Reassociate(a, lines, b);
    ChangeSetConcat(dangerous, lines, b);
    assert [] + ChangeSet(dangerous, b) == ChangeSet(dangerous, b);
    ChangeSetConcat(dangerous, a, lines + b);
    ChangeSetConcat(dangerous, a, b);
  }

  lemma {:induction false} UnixOneLine(line: string)
    requires OneLine(line)
    ensures Unix(line + "\n") == (if line != "" && line[|line| - 1] == '\r' then line[..|line| - 1] else line) + "\n"
  {
    if line != "" {
      assert (line + "\n")[1..] == line[1..] + "\n";
      UnixOneLine(line[1..]);
      if |line| == 1 {
        assert line + "\n" == [line[0], '\n'];
      }
    }
  }

  /** In particular one line whose path is dangerous or ignored. */
  lemma {:induction false} OneIgnoredLine(dangerous: string -> bool, line: string)
    requires OneLine(line)
    ensures
      var unix := if line != "" && line[|line| - 1] == '\r' then line[..|line| - 1] else line;
      ChangeSet(dangerous, line + "\n") == if Kept(dangerous, unix) then [unix] else []
  {
    var unix := if line != "" && line[|line| - 1] == '\r' then line[..|line| - 1] else line;
    UnixOneLine(line);
    assert unix + "\n" + "" == unix + "\n";
    SplitFirst(unix, "");
    KeptConcat(dangerous, [unix], [""]);
    NothingKept(dangerous);
    assert KeptLines(dangerous, [unix]) == KeptOf(dangerous, unix) + KeptLines(dangerous, []);
  }

  // ----- What the decision sees ---------------------------------------------

  function FirstFiles(files: seq<string>): seq<string> {
    if |files| <= MAX_STATUS_LINES then files else files[..MAX_STATUS_LINES]
  }

  /** The files a draft would cover: eligible paths among the first two hundred. */
  function DraftFiles(dangerous: string -> bool, text: string): seq<string> {
    FirstFiles(FilterDraft(dangerous, FirstFiles(Paths(SplitLines(text)))))
  }

  lemma {:induction false} FilterDraftEmpty(dangerous: string -> bool, files: seq<string>)
    ensures FilterDraft(dangerous, files) == [] <==> forall f :: f in files ==> !Eligible(dangerous, f)
  {
    if files != [] {
      FilterDraftEmpty(dangerous, files[1..]);
      assert files == [files[0]] + files[1..];
    }
  }

  /** The filter keeps exactly the eligible files, in order and as often as they come. */
  lemma {:induction false} FilterDraftIs(dangerous: string -> bool, f: string)
    ensures FilterDraft(dangerous, [f]) == if !dangerous(f) && !Ignored(f) then [f] else []
  {
    assert [f][1..] == [];
    assert FilterDraft(dangerous, []) == [];
  }

  lemma {:induction false} FilterDraftConcat(dangerous: string -> bool, a: seq<string>, b: seq<string>)
    ensures FilterDraft(dangerous, a + b) == FilterDraft(dangerous, a) + FilterDraft(dangerous, b)
  {
    if a == [] {
      assert a + b == b;
    } else {
      assert (a + b)[1..] == a[1..] + b;
      FilterDraftConcat(dangerous, a[1..], b);
      Reassociate(if Eligible(dangerous, a[0]) then [a[0]] else [], FilterDraft(dangerous, a[1..]), FilterDraft(dangerous, b));
    }
  }

  /** The decision to draft sees a change exactly when one of the first two hundred paths is eligible. */
  lemma {:induction false} SeenIff(dangerous: string -> bool, text: string)
    ensures DraftFiles(dangerous, text) != [] <==>
              exists f :: f in FirstFiles(Paths(SplitLines(text))) && Eligible(dangerous, f)
  {
    FilterDraftEmpty(dangerous, FirstFiles(Paths(SplitLines(text))));
  }

  lemma {:induction false} PathsOfIgnored(dangerous: string -> bool, lines: seq<string>)
    requires forall l :: l in lines ==> PathOf(l).Some? && !Kept(dangerous, l)
    ensures |Paths(lines)| == |lines| && forall f :: f in Paths(lines) ==> !Eligible(dangerous, f)
  {
    if lines != [] {
      PathsOfIgnored(dangerous, lines[1..]);
    }
  }

  /**
   * The cut to two hundred comes before the filter: once that many ignored files are changed,
   * the change set may hold eligible lines that the decision never sees.
   */
  lemma {:induction false} IgnoredFilesStarveDrafts(dangerous: string -> bool, ignored: seq<string>, more: seq<string>)
    requires |ignored| >= MAX_STATUS_LINES
    requires forall l :: l in ignored ==> PathOf(l).Some? && !Kept(dangerous, l)
    requires forall l :: l in ignored + more ==> OneLine(l) && '\r' !in l
    ensures DraftFiles(dangerous, Render(ignored + more)) == []
    ensures forall l :: l in more && Kept(dangerous, l) ==> l in ChangeSet(dangerous, Render(ignored + more))
  {
    var lines := ignored + more + [""];
    SplitRender(ignored + more);
    assert lines == ignored + (more + [""]);
    PathsConcat(ignored, more + [""]);
    PathsOfIgnored(dangerous, ignored);
    assert FirstFiles(Paths(lines)) == Paths(ignored)[..MAX_STATUS_LINES];
    FilterDraftEmpty(dangerous, FirstFiles(Paths(lines)));
    RenderHasNoReturn(ignored + more);
    UnixPlain(Render(ignored + more));
    KeptAmong(dangerous, lines);
  }

  lemma {:induction false} RenderHasNoReturn(lines: seq<string>)
    requires forall l :: l in lines ==> '\r' !in l
    ensures '\r' !in Render(lines)
  {
    if lines != [] {
      RenderHasNoReturn(lines[1..]);
    }
  }

  lemma {:induction false} UnixPlain(s: string)
    requires '\r' !in s || OneLine(s)
    ensures Unix(s) == s
  {
    if s != "" {
      UnixPlain(s[1..]);
      assert |s| >= 2 ==> s[1] in s && s[0] in s;
    }
  }

  lemma {:induction false} PathIgnoresReturn(line: string)
    ensures PathOf(line + "\r") == PathOf(line)
  {
    assert forall i :: 0 <= i < |line| ==> (line + "\r")[i] == line[i];
    assert Blank(line + "\r") == Blank(line);
    if |line| >= 3 {
      assert (line + "\r")[3..] == line[3..] + "\r";
      TrimReturn(line[3..]);
    } else if |line| == 2 {
      assert (line + "\r")[3..] == "";
    }
  }

  lemma {:induction false} TrimReturn(s: string)
    ensures Trim(s + "\r") == Trim(s)
  {
    var a, b := TrimSplits(s);
    if Trim(s) == "" {
      var _, _ := TrimSplits(s + "\r");
    } else {
      assert s + "\r" == a + Trim(s) + (b + "\r");
      TrimAround(a, Trim(s), b + "\r");
    }
  }

  lemma {:induction false} PathsOfUnix(s: string)
    ensures Paths(SplitLines(Unix(s))) == Paths(SplitLines(s))
    decreases |s|
  {
    if OneLine(s) {
      UnixPlain(s);
    } else {
      var n :| 0 <= n < |s| && s[n] == '\n' && OneLine(s[..n]) by { FirstNewline(s); }
      var line, rest := s[..n], s[n + 1..];
      assert s == (line + "\n") + rest;
      var unix := if line != "" && line[|line| - 1] == '\r' then line[..|line| - 1] else line;
      UnixConcat(line + "\n", rest);
      UnixOneLine(line);
      assert Unix(s) == unix + "\n" + Unix(rest);
      PathsOfUnix(rest);
      SamePath(line, unix);
      PathsOfFirst(line, rest);
      PathsOfFirst(unix, Unix(rest));
    }
  }

  lemma {:induction false} FirstNewline(s: string)
    requires !OneLine(s)
    ensures exists n :: 0 <= n < |s| && s[n] == '\n' && OneLine(s[..n])
  {
    if s[0] == '\n' {
      assert OneLine(s[..0]);
    } else {
      FirstNewline(s[1..]);
      var n :| 0 <= n < |s[1..]| && s[1..][n] == '\n' && OneLine(s[1..][..n]);
      assert s[..n + 1] == [s[0]] + s[1..][..n];
    }
  }

  lemma {:induction false} SamePath(line: string, unix: string)
    requires unix == if line != "" && line[|line| - 1] == '\r' then line[..|line| - 1] else line
    ensures PathOf(unix) == PathOf(line)
  {
    if unix != line {
      assert line == unix + "\r";
      PathIgnoresReturn(unix);
    }
  }

  lemma {:induction false} PathsOfFirst(line: string, rest: string)
    requires OneLine(line)
    ensures Paths(SplitLines(line + "\n" + rest)) == ListOf(PathOf(line)) + Paths(SplitLines(rest))
  {
    SplitFirst(line, rest);
    PathsConcat([line], SplitLines(rest));
    assert Paths([line]) == ListOf(PathOf(line)) + Paths([]);
  }

  lemma {:induction false} KeptIffEligiblePath(dangerous: string -> bool, lines: seq<string>)
    ensures KeptLines(dangerous, lines) != [] <==> exists f :: f in Paths(lines) && Eligible(dangerous, f)
  {
    if lines != [] {
      KeptIffEligiblePath(dangerous, lines[1..]);
      assert forall f :: f in Paths(lines) <==> f in ListOf(PathOf(lines[0])) || f in Paths(lines[1..]);
      assert KeptOf(dangerous, lines[0]) != [] <==> exists f :: f in ListOf(PathOf(lines[0])) && Eligible(dangerous, f);
    }
  }

  /** Drafting is starved exactly when there are eligible paths and all of them come after the first two hundred. */
  lemma {:induction false} StarvedIff(dangerous: string -> bool, text: string)
    ensures ChangeSet(dangerous, text) != [] && DraftFiles(dangerous, text) == [] <==>
              && (exists f :: f in Paths(SplitLines(text)) && Eligible(dangerous, f))
              && (forall f :: f in FirstFiles(Paths(SplitLines(text))) ==> !Eligible(dangerous, f))
  {
    SeenIff(dangerous, text);
    PathsOfUnix(text);
    KeptIffEligiblePath(dangerous, SplitLines(Unix(text)));
  }

  /** With at most two hundred changed files the decision and the change set agree on whether there is anything to draft. */
  lemma {:induction false} FewFilesAreSeen(dangerous: string -> bool, text: string)
    requires |Paths(SplitLines(text))| <= MAX_STATUS_LINES
    ensures DraftFiles(dangerous, text) != [] <==> ChangeSet(dangerous, text) != []
  {
    SeenIff(dangerous, text);
    PathsOfUnix(text);
    KeptIffEligiblePath(dangerous, SplitLines(Unix(text)));
  }
}
