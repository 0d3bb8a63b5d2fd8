/**
 * The `<image_files>` envelope: its printer, its parser, and the round trip
 * between them, for any tag and any wording around the numbered paths.
 */
module ImageFiles {
  import opened Text

  function Open(tag: string): string { "<" + tag + ">" }

  function Close(tag: string): string { "</" + tag + ">" }

  predicate PlainTag(tag: string) {
    tag != "" && Free(tag, '<') && Free(tag, '/') && Free(tag, '\n')
  }

  // ----- Parsing ------------------------------------------------------------

  /** The first closed block, as start and end offsets, tags included. */
  function TagBlockRange(tag: string, text: string): (r: Option<(nat, nat)>)
    ensures r.Some? ==> r.value.0 < r.value.1 <= |text|
  {
    match Find(text, Open(tag))
    case None => None
    case Some(start) =>
      match Find(text[start..], Close(tag))
      case None => None
      case Some(end) => Some((start, start + end + |Close(tag)|))
  }

  function ExtractTagBlock(tag: string, text: string): Option<string> {
    match TagBlockRange(tag, text)
    case None => None
    case Some((start, end)) => Some(text[start..end])
  }

  function StripCr(line: string): string {
    if line != "" && line[|line| - 1] == '\r' then line[..|line| - 1] else line
  }

  /** Lines as `str::lines` gives them: split at newlines, a final empty line dropped. */
  function Lines(s: string): seq<string>
    decreases |s|
  {
    if s == "" then []
    else match Find(s, "\n")
      case None => [s]
      case Some(n) => [StripCr(s[..n])] + Lines(s[n + 1..])
  }

  /** The path of a `N. path` line. */
  function NumberedPath(line: string): Option<string> {
    var t := Trim(line);
    match Find(t, ". ")
    case None => None
    case Some(i) => if Digits(t[..i]) then Some(Trim(t[i + 2..])) else None
  }

  function NumberedPaths(lines: seq<string>): seq<string> {
    if lines == [] then []
    else
      (match NumberedPath(lines[0]) case Some(p) => [p] case None => []) + NumberedPaths(lines[1..])
  }

  /** Paths of every closed block of `text`, in order. */
  function ParsePaths(tag: string, text: string): seq<string>
    decreases |text|
  {
    match TagBlockRange(tag, text)
    case None => []
    case Some((start, end)) => NumberedPaths(Lines(text[start..end])) + ParsePaths(tag, text[end..])
  }

  lemma {:induction false} ParseNext(tag: string, text: string, paths: seq<string>)
    requires TagBlockRange(tag, text).Some?
    ensures
      var (start, end) := TagBlockRange(tag, text).value;
      paths + ParsePaths(tag, text) == paths + NumberedPaths(Lines(text[start..end])) + ParsePaths(tag, text[end..])
  {
  }

  method ParseImageFilesPaths(tag: string, text: string) returns (paths: seq<string>)
    ensures paths == ParsePaths(tag, text)
  {
    paths := [];
    var rest := text;
    while true
      invariant ParsePaths(tag, text) == paths + ParsePaths(tag, rest)
      decreases |rest|
    {
      var range := TagBlockRange(tag, rest);
      if range.None? {
        return;
      }
      ParseNext(tag, rest, paths);
      var block := rest[range.value.0..range.value.1];
      paths := paths + NumberedPaths(Lines(block));
      rest := rest[range.value.1..];
    }
  }

  // ----- Printing -----------------------------------------------------------

  predicate IsAsciiControl(c: char) {
    c < ' ' || c == '\U{007F}'
  }

  function ScrubChar(c: char): string {
    if c == '<' then "\U{2039}" else if c == '>' then "\U{203A}" else if IsAsciiControl(c) then "" else [c]
  }

  function Scrub(s: string): string {
    if s == "" then "" else ScrubChar(s[0]) + Scrub(s[1..])
  }

  lemma {:induction false} ScrubNext(s: string, i: nat, out: string)
    requires i < |s|
    ensures out + Scrub(s[i..]) == out + ScrubChar(s[i]) + Scrub(s[i + 1..])
  {
    assert s[i..][1..] == s[i + 1..];
  }

  method ScrubForEnvelope(s: string) returns (out: string)
    ensures out == Scrub(s)
  {
    out := "";
    for i := 0 to |s|
      invariant Scrub(s) == out + Scrub(s[i..])
    {
      ScrubNext(s, i, out);
      out := out + ScrubChar(s[i]);
    }
    assert s[|s|..] == "";
  }

  /** The numbered lines for `paths`, the first numbered `n`. */
  function PathLines(paths: seq<string>, n: nat): string {
    if paths == [] then ""
    else Decimal(n) + ". " + Scrub(paths[0]) + "\n" + PathLines(paths[1..], n + 1)
  }

  function Block(tag: string, lead: string, paths: seq<string>, trailer: string): string {
    Open(tag) + "\n" + lead + "\n" + PathLines(paths, 1) + trailer + Close(tag)
  }

  method ImageFilesBlock(tag: string, lead: string, paths: seq<string>, trailer: string) returns (out: string)
    ensures out == Block(tag, lead, paths, trailer)
  {
    out := Open(tag) + "\n" + lead + "\n";
    ghost var head := out;
    for i := 0 to |paths|
      invariant head + PathLines(paths, 1) == out + PathLines(paths[i..], i + 1)
    {
      assert paths[i..][1..] == paths[i + 1..];
      var scrubbed := ScrubForEnvelope(paths[i]);
      out := out + (Decimal(i + 1) + ". " + scrubbed + "\n");
    }
    assert paths[|paths|..] == [];
    out := out + trailer + Close(tag);
  }

  /** A rendered block: the opening tag and the lead on lines of their own, the paths, the trailer, the closing tag. */
  lemma {:induction false} BlockSays(tag: string, lead: string, paths: seq<string>, trailer: string)
    ensures
      var b := Block(tag, lead, paths, trailer);
      && Open(tag) + "\n" + lead + "\n" + PathLines(paths, 1) <= b
      && b[|Open(tag) + "\n" + lead + "\n" + PathLines(paths, 1)|..] == trailer + Close(tag)
  {
    var head := Open(tag) + "\n" + lead + "\n" + PathLines(paths, 1);
    Reassociate(head, trailer, Close(tag));
  }

  /** A line lists a path exactly when, trimmed, it is digits, a full stop, a space and the path. */
  lemma {:induction false} NumberedPathIs(line: string)
    ensures NumberedPath(line).Some? ==>
              exists d, rest :: Digits(d) && Trim(line) == d + ". " + rest && NumberedPath(line).value == Trim(rest)
    ensures (exists d, rest :: Digits(d) && Trim(line) == d + ". " + rest) ==> NumberedPath(line).Some?
  {
    var t := Trim(line);
    if NumberedPath(line).Some? {
      var i := Find(t, ". ").value;
      assert t == t[..i] + ". " + t[i + 2..];
    }
    if exists d, rest :: Digits(d) && t == d + ". " + rest {
      var d, rest :| Digits(d) && t == d + ". " + rest;
      SplitAtDot(d, rest);
    }
  }

  // ----- Where a block is found ---------------------------------------------

  /** A closed block: it opens with the tag and its only closing tag ends it. */
  predicate IsBlock(tag: string, b: string) {
    && Open(tag) <= b
    && |Close(tag)| <= |b|
    && OccursAt(b, Close(tag), |b| - |Close(tag)|)
    && forall j :: 0 <= j < |b| - |Close(tag)| ==> !OccursAt(b, Close(tag), j)
  }

  lemma {:induction false} OccursChars(text: string, pat: string, i: int)
    requires OccursAt(text, pat, i)
    ensures forall k :: 0 <= k < |pat| ==> text[i + k] == pat[k]
  {
    forall k | 0 <= k < |pat| ensures text[i + k] == pat[k] {
      assert text[i..i + |pat|][k] == pat[k];
    }
  }

  lemma {:induction false} OccursWithin(text: string, b: string, pat: string, i: int)
    requires 0 <= i && i + |pat| <= |text|
    ensures OccursAt(text + b, pat, i) == OccursAt(text, pat, i)
  {
    assert (text + b)[i..i + |pat|] == text[i..i + |pat|];
  }

  /** An opening tag cannot straddle the start of another: it has `<` only in front. */
  lemma {:induction false} OpenBefore(tag: string, prefix: string, rest: string, i: int)
    requires PlainTag(tag) && Find(prefix, Open(tag)).None? && rest != "" && rest[0] == '<'
    requires 0 <= i < |prefix|
    ensures !OccursAt(prefix + rest, Open(tag), i)
  {
    var text, open := prefix + rest, Open(tag);
    if i + |open| <= |prefix| {
      OccursWithin(prefix, rest, open, i);
    } else {
      var k := |prefix| - i;
      assert text[i + k] == '<' && open[k] != '<';
      if OccursAt(text, open, i) {
        OccursChars(text, open, i);
      }
    }
  }

  lemma {:induction false} FindsOpen(tag: string, prefix: string, b: string)
    requires PlainTag(tag) && Find(prefix, Open(tag)).None? && Open(tag) <= b
    ensures Find(prefix + b, Open(tag)) == Some(|prefix|)
  {
    var text, open := prefix + b, Open(tag);
    assert text[|prefix|..|prefix| + |open|] == open;
    assert b[0] == open[0];
    forall i | 0 <= i < |prefix| ensures !OccursAt(text, open, i) {
      OpenBefore(tag, prefix, b, i);
    }
    FindIs(text, open, |prefix|);
  }

  lemma {:induction false} FindsClose(tag: string, b: string, suffix: string)
    requires IsBlock(tag, b)
    ensures Find(b + suffix, Close(tag)) == Some(|b| - |Close(tag)|)
  {
    var close := Close(tag);
    var end := |b| - |close|;
    forall j | 0 <= j <= end ensures OccursAt(b + suffix, close, j) == OccursAt(b, close, j) {
      OccursWithin(b, suffix, close, j);
    }
    FindIs(b + suffix, close, end);
  }

  lemma {:induction false} StartsWithOpen(tag: string, b: string, suffix: string)
    requires IsBlock(tag, b)
    ensures Open(tag) <= b + suffix
  {
  }

  lemma {:induction false} FindsRange(tag: string, prefix: string, rest: string, end: nat)
    requires PlainTag(tag) && Find(prefix, Open(tag)).None? && Open(tag) <= rest && Find(rest, Close(tag)) == Some(end)
    ensures TagBlockRange(tag, prefix + rest) == Some((|prefix|, |prefix| + end + |Close(tag)|))
  {
    assert (prefix + rest)[|prefix|..] == rest;
    FindsOpen(tag, prefix, rest);
  }

  lemma {:induction false} FindsBlock(tag: string, prefix: string, b: string, suffix: string)
    requires PlainTag(tag) && Find(prefix, Open(tag)).None? && IsBlock(tag, b)
    ensures TagBlockRange(tag, prefix + b + suffix) == Some((|prefix|, |prefix| + |b|))
  {
    Reassociate(prefix, b, suffix);
    StartsWithOpen(tag, b, suffix);
    FindsClose(tag, b, suffix);
    FindsRange(tag, prefix, b + suffix, |b| - |Close(tag)|);
  }

  /** Text around a block does not matter; each closed block is read in turn. */
  lemma {:induction false} ParseBlock(tag: string, prefix: string, b: string, suffix: string)
    requires PlainTag(tag) && Find(prefix, Open(tag)).None? && IsBlock(tag, b)
    ensures ParsePaths(tag, prefix + b + suffix) == NumberedPaths(Lines(b)) + ParsePaths(tag, suffix)
    ensures ExtractTagBlock(tag, prefix + b + suffix) == Some(b)
  {
    var text := prefix + b + suffix;
    FindsBlock(tag, prefix, b, suffix);
    assert text[|prefix|..|prefix| + |b|] == b;
    assert text[|prefix| + |b|..] == suffix;
  }

  // ----- What the printer guarantees ----------------------------------------

  predicate Scrubbed(s: string) {
    forall i :: 0 <= i < |s| ==> s[i] != '<' && s[i] != '>' && !IsAsciiControl(s[i])
  }

  lemma {:induction false} ScrubSafe(s: string)
    ensures Scrubbed(Scrub(s))
  {
    if s != "" {
      ScrubSafe(s[1..]);
    }
  }

  lemma {:induction false} ScrubFixes(s: string)
    requires Scrubbed(s)
    ensures Scrub(s) == s
  {
    if s != "" {
      ScrubFixes(s[1..]);
    }
  }

  lemma {:induction false} PathLinesBare(paths: seq<string>, n: nat)
    ensures Free(PathLines(paths, n), '<')
  {
    if paths != [] {
      ScrubSafe(paths[0]);
      PathLinesBare(paths[1..], n + 1);
    }
  }

  /** A lead or trailer line the parser passes over. */
  predicate PlainLine(line: string) {
    Free(line, '<') && Free(line, '\n') && line != "" && !IsSpace(line[0]) && !IsDigit(line[0])
  }

  ghost predicate PlainTrailer(trailer: string) {
    || trailer == ""
    || exists line {:trigger PlainLine(line)} :: PlainLine(line) && trailer == "\n" + line + "\n"
  }

  /** No path, lead or trailer content can close a rendered block early. */
  lemma {:induction false} BlockIsBlock(tag: string, lead: string, paths: seq<string>, trailer: string)
    requires PlainTag(tag) && Free(lead, '<') && Free(trailer, '<')
    ensures IsBlock(tag, Block(tag, lead, paths, trailer))
  {
    var inner := "\n" + lead + "\n" + PathLines(paths, 1) + trailer;
    PathLinesBare(paths, 1);
    assert Free(inner, '<');
    assert Block(tag, lead, paths, trailer) == Open(tag) + inner + Close(tag);
    WrapsToBlock(tag, inner);
  }

  lemma {:induction false} WrapsToBlock(tag: string, inner: string)
    requires PlainTag(tag) && Free(inner, '<')
    ensures IsBlock(tag, Open(tag) + inner + Close(tag))
  {
    var open, close := Open(tag), Close(tag);
    var b := open + inner + close;
    assert b[|b| - |close|..] == close;
    assert open <= b;
    forall j | 0 <= j < |b| - |close| ensures !OccursAt(b, close, j) {
      assert j == 0 ==> b[1] == tag[0];
      assert 0 < j < |open| ==> b[j] == open[j];
      assert |open| <= j ==> b[j] == inner[j - |open|];
      if OccursAt(b, close, j) {
        OccursChars(b, close, j);
      }
    }
  }

  /** Scrubbing goes character by character: brackets become look-alikes, control characters go, all else stays. */
  lemma {:induction false} ScrubIs(c: char)
    ensures Scrub([c]) ==
              if c == '<' then "\U{2039}" else if c == '>' then "\U{203A}" else if c < ' ' || c == '\U{007F}' then "" else [c]
  {
    assert [c][1..] == "";
    assert Scrub("") == "";
  }

  lemma {:induction false} ScrubConcat(a: string, b: string)
    ensures Scrub(a + b) == Scrub(a) + Scrub(b)
  {
    if a == "" {
      assert a + b == b;
    } else {
      assert (a + b)[1..] == a[1..] + b;
      ScrubConcat(a[1..], b);
      Reassociate(ScrubChar(a[0]), Scrub(a[1..]), Scrub(b));
    }
  }

  // ----- What the parser reads back -----------------------------------------

  lemma {:induction false} LinesCons(line: string, rest: string)
    requires Free(line, '\n')
    ensures Lines(line + "\n" + rest) == [StripCr(line)] + Lines(rest)
  {
    var s := line + "\n" + rest;
    assert s[|line|..|line| + 1] == "\n";
    forall j | 0 <= j < |line| ensures !OccursAt(s, "\n", j) {
      assert s[j..j + 1][0] == line[j];
    }
    FindIs(s, "\n", |line|);
    assert s[..|line|] == line && s[|line| + 1..] == rest;
  }

  lemma {:induction false} NotNumbered(line: string)
    requires line == "" || (!IsSpace(line[0]) && !IsDigit(line[0]))
    ensures NumberedPath(line).None?
  {
    if line != "" {
      var b := TrimEndSplits(line);
      var t := Trim(line);
      assert t != "" ==> t[0] == line[0];
      match Find(t, ". ") {
        case None =>
        case Some(i) => assert i > 0 ==> t[..i][0] == line[0];
      }
    }
  }

  lemma {:induction false} DigitsNotSpace(d: string)
    requires Digits(d)
    ensures forall i :: 0 <= i < |d| ==> !IsSpace(d[i]) && d[i] != '.'
  {
  }

  lemma {:induction false} SplitAtDot(d: string, rest: string)
    requires Digits(d)
    ensures
      var t := d + ". " + rest;
      Find(t, ". ") == Some(|d|) && t[..|d|] == d && t[|d| + 2..] == rest
  {
    var t := d + ". " + rest;
    assert t[|d|..|d| + 2] == ". ";
    forall j | 0 <= j < |d| ensures !OccursAt(t, ". ", j) {
      assert t[j] == d[j] != '.';
      if OccursAt(t, ". ", j) {
        OccursChars(t, ". ", j);
      }
    }
    FindIs(t, ". ", |d|);
  }

  /** The path a numbered line carries: the printed text, trimmed; nothing if that is blank. */
  lemma {:induction false} NumberedLine(n: nat, text: string)
    ensures NumberedPath(Decimal(n) + ". " + text) == if Trim(text) == "" then None else Some(Trim(text))
  {
    var a, b := TrimSplits(text);
    if Trim(text) == "" {
      BlankNumberedLine(Decimal(n), text);
    } else {
      FullNumberedLine(Decimal(n), a, Trim(text), b);
      assert Decimal(n) + ". " + text == Decimal(n) + ". " + (a + Trim(text) + b);
    }
  }

  lemma {:induction false} BlankNumberedLine(d: string, text: string)
    requires Digits(d) && Blank(text)
    ensures NumberedPath(d + ". " + text).None?
  {
    DigitsNotSpace(d);
    assert d + ". " + text == "" + (d + ".") + (" " + text);
    TrimAround("", d + ".", " " + text);
    assert Find(d + ".", ". ").None?;
  }

  lemma {:induction false} FullNumberedLine(d: string, a: string, core: string, b: string)
    requires Digits(d) && Blank(a) && Trimmed(core) && Blank(b)
    ensures NumberedPath(d + ". " + (a + core + b)) == Some(core)
  {
    DigitsNotSpace(d);
    var t := d + ". " + (a + core);
    assert d + ". " + (a + core + b) == "" + t + b;
    TrimAround("", t, b);
    SplitAtDot(d, a + core);
    assert a + core + "" == a + core;
    TrimAround(a, core, "");
  }

  /** What survives of a path: scrubbed and trimmed. */
  function Cleaned(path: string): string {
    Trim(Scrub(path))
  }

  function CleanPaths(paths: seq<string>): seq<string> {
    if paths == [] then []
    else (if Cleaned(paths[0]) == "" then [] else [Cleaned(paths[0])]) + CleanPaths(paths[1..])
  }

  predicate IsClean(path: string) {
    path != "" && Cleaned(path) == path
  }

  predicate AllClean(paths: seq<string>) {
    forall i :: 0 <= i < |paths| ==> IsClean(paths[i])
  }

  lemma {:induction false} NumberedCons(line: string, rest: seq<string>)
    ensures NumberedPaths([line] + rest)
         == (match NumberedPath(line) case Some(p) => [p] case None => []) + NumberedPaths(rest)
  {
    assert ([line] + rest)[1..] == rest;
  }

  /** A printed line has no line break inside it and none is stripped from it. */
  lemma {:induction false} PathLineWhole(n: nat, path: string)
    ensures
      var line := Decimal(n) + ". " + Scrub(path);
      Free(line, '\n') && StripCr(line) == line
  {
    var d, s := Decimal(n), Scrub(path);
    ScrubSafe(path);
    assert Free(d, '\n') && Free(d, '\r') && Free(s, '\n') && Free(s, '\r');
  }

  lemma {:induction false} FirstPrinted(paths: seq<string>, n: nat)
    requires paths != []
    ensures Lines(PathLines(paths, n)) == [Decimal(n) + ". " + Scrub(paths[0])] + Lines(PathLines(paths[1..], n + 1))
  {
    PathLineWhole(n, paths[0]);
    LinesCons(Decimal(n) + ". " + Scrub(paths[0]), PathLines(paths[1..], n + 1));
  }

  /** One line for each path, numbered up from `n`, in order. */
  function Listed(paths: seq<string>, n: nat): seq<string> {
    seq(|paths|, i requires 0 <= i < |paths| => Decimal(n + i) + ". " + Scrub(paths[i]))
  }

  lemma {:induction false} ListedCons(paths: seq<string>, n: nat)
    requires paths != []
    ensures Listed(paths, n) == [Decimal(n) + ". " + Scrub(paths[0])] + Listed(paths[1..], n + 1)
  {
    var rest := Listed(paths[1..], n + 1);
    forall i | 0 < i < |paths| ensures Listed(paths, n)[i] == rest[i - 1] {
      assert n + 1 + (i - 1) == n + i;
    }
  }

  /** The printed lines are numbered so. */
  lemma {:induction false} LinesAreNumbered(paths: seq<string>, n: nat)
    ensures Lines(PathLines(paths, n)) == Listed(paths, n)
    decreases |paths|
  {
    if paths != [] {
      FirstPrinted(paths, n);
      LinesAreNumbered(paths[1..], n + 1);
      ListedCons(paths, n);
    }
  }

  lemma {:induction false} CleanPathsCons(paths: seq<string>, more: seq<string>)
    requires paths != []
    ensures CleanPaths(paths) + more
         == (if Cleaned(paths[0]) == "" then [] else [Cleaned(paths[0])]) + (CleanPaths(paths[1..]) + more)
  {
    Reassociate(if Cleaned(paths[0]) == "" then [] else [Cleaned(paths[0])], CleanPaths(paths[1..]), more);
  }

  lemma {:induction false} PathLinesParse(paths: seq<string>, n: nat, rest: string)
    ensures NumberedPaths(Lines(PathLines(paths, n) + rest)) == CleanPaths(paths) + NumberedPaths(Lines(rest))
  {
    if paths == [] {
      assert PathLines(paths, n) + rest == rest;
    } else {
      var tail := PathLines(paths[1..], n + 1) + rest;
      PathLinesCons(paths, n, rest);
      PathLineParse(paths[0], n, tail);
      PathLinesParse(paths[1..], n + 1, rest);
      CleanPathsCons(paths, NumberedPaths(Lines(rest)));
    }
  }

  lemma {:induction false} PathLinesCons(paths: seq<string>, n: nat, rest: string)
    requires paths != []
    ensures PathLines(paths, n) + rest
         == Decimal(n) + ". " + Scrub(paths[0]) + "\n" + (PathLines(paths[1..], n + 1) + rest)
  {
  }

  lemma {:induction false} PathLineParse(path: string, n: nat, tail: string)
    ensures NumberedPaths(Lines(Decimal(n) + ". " + Scrub(path) + "\n" + tail))
         == (if Cleaned(path) == "" then [] else [Cleaned(path)]) + NumberedPaths(Lines(tail))
  {
    var line := Decimal(n) + ". " + Scrub(path);
    PathLineWhole(n, path);
    LinesCons(line, tail);
    NumberedLine(n, Scrub(path));
    NumberedCons(line, Lines(tail));
  }

  lemma {:induction false} PlainSkipped(line: string, rest: string)
    requires Free(line, '\n') && (line == "" || (!IsSpace(line[0]) && !IsDigit(line[0])))
    ensures NumberedPaths(Lines(line + "\n" + rest)) == NumberedPaths(Lines(rest))
  {
    LinesCons(line, rest);
    NotNumbered(StripCr(line));
    NumberedCons(StripCr(line), Lines(rest));
  }

  lemma {:induction false} LastLineSkipped(line: string)
    requires Free(line, '\n') && line != "" && !IsSpace(line[0]) && !IsDigit(line[0])
    ensures NumberedPaths(Lines(line)) == []
  {
    if Find(line, "\n").Some? {
      OccursChars(line, "\n", Find(line, "\n").value);
      assert false;
    }
    NotNumbered(line);
    NumberedCons(line, []);
    assert [line] + [] == [line];
  }

  lemma {:induction false} TrailerIsFree(trailer: string)
    requires PlainTrailer(trailer)
    ensures Free(trailer, '<')
  {
  }

  lemma {:induction false} TrailerSkipped(tag: string, trailer: string)
    requires PlainTag(tag) && PlainTrailer(trailer)
    ensures NumberedPaths(Lines(trailer + Close(tag))) == []
  {
    if trailer == "" {
      assert trailer + Close(tag) == Close(tag);
    } else {
      var line :| PlainLine(line) && trailer == "\n" + line + "\n";
      LineThenClose(line, Close(tag));
    }
    LastLineSkipped(Close(tag));
  }

  lemma {:induction false} LineThenClose(line: string, close: string)
    requires PlainLine(line)
    ensures NumberedPaths(Lines("\n" + line + "\n" + close)) == NumberedPaths(Lines(close))
  {
    var rest := line + "\n" + close;
    Reassociate("\n", line, "\n" + close);
    Reassociate("\n" + line, "\n", close);
    Reassociate(line, "\n", close);
    assert "" + "\n" == "\n";
    PlainSkipped(line, close);
    PlainSkipped("", rest);
  }

  lemma {:induction false} BlockLines(tag: string, lead: string, paths: seq<string>, trailer: string)
    requires PlainTag(tag) && PlainLine(lead) && PlainTrailer(trailer)
    ensures NumberedPaths(Lines(Block(tag, lead, paths, trailer))) == CleanPaths(paths)
  {
    var tail := trailer + Close(tag);
    var body := PathLines(paths, 1) + tail;
    assert Block(tag, lead, paths, trailer) == Open(tag) + "\n" + (lead + "\n" + body);
    HeadSkipped(Open(tag), lead, body);
    TrailerSkipped(tag, trailer);
    PathLinesParse(paths, 1, tail);
  }

  lemma {:induction false} HeadSkipped(open: string, lead: string, body: string)
    requires PlainLine(lead) && Free(open, '\n') && open != "" && !IsSpace(open[0]) && !IsDigit(open[0])
    ensures NumberedPaths(Lines(open + "\n" + (lead + "\n" + body))) == NumberedPaths(Lines(body))
  {
    PlainSkipped(lead, body);
    PlainSkipped(open, lead + "\n" + body);
  }

  /**
   * Render then parse: whatever precedes without an opening tag and whatever
   * follows, the block reads back as its scrubbed, trimmed, non-blank paths in
   * order, and parsing then goes on after it.
   */
  lemma {:induction false} EnvelopeRoundTrip(
      tag: string, prefix: string, lead: string, paths: seq<string>, trailer: string, suffix: string)
    requires PlainTag(tag) && Find(prefix, Open(tag)).None? && PlainLine(lead) && PlainTrailer(trailer)
    ensures ParsePaths(tag, prefix + Block(tag, lead, paths, trailer) + suffix)
         == CleanPaths(paths) + ParsePaths(tag, suffix)
  {
    TrailerIsFree(trailer);
    BlockIsBlock(tag, lead, paths, trailer);
    ParseBlock(tag, prefix, Block(tag, lead, paths, trailer), suffix);
    BlockLines(tag, lead, paths, trailer);
  }

  // ----- Cleaning is idempotent ---------------------------------------------

  lemma {:induction false} CleanedIsClean(path: string)
    requires Cleaned(path) != ""
    ensures IsClean(Cleaned(path))
  {
    var s, c := Scrub(path), Cleaned(path);
    ScrubSafe(path);
    var a, b := TrimSplits(s);
    forall i | 0 <= i < |c| ensures c[i] == s[|a| + i] {}
    ScrubFixes(c);
    TrimAround("", c, "");
    assert "" + c + "" == c;
  }

  lemma {:induction false} CleanPathsFixed(paths: seq<string>)
    requires AllClean(paths)
    ensures CleanPaths(paths) == paths
  {
    if paths != [] {
      CleanPathsFixed(paths[1..]);
    }
  }

  lemma {:induction false} CleanPathsClean(paths: seq<string>)
    ensures AllClean(CleanPaths(paths))
  {
    if paths != [] {
      CleanPathsClean(paths[1..]);
      if Cleaned(paths[0]) != "" {
        CleanedIsClean(paths[0]);
      }
    }
  }

  lemma {:induction false} NoOpenParsesEmpty(tag: string, text: string)
    requires Find(text, Open(tag)).None?
    ensures ParsePaths(tag, text) == []
    ensures ExtractTagBlock(tag, text).None?
  {
  }

  /** Rendering what was parsed changes nothing more: one trip reaches the fixed point. */
  lemma {:induction false} RoundTripIsIdempotent(tag: string, lead: string, paths: seq<string>, trailer: string)
    requires PlainTag(tag) && PlainLine(lead) && PlainTrailer(trailer)
    ensures
      var once := ParsePaths(tag, Block(tag, lead, paths, trailer));
      once == CleanPaths(paths) && ParsePaths(tag, Block(tag, lead, once, trailer)) == once
  {
    BlockParses(tag, lead, paths, trailer);
    BlockParses(tag, lead, CleanPaths(paths), trailer);
    CleanPathsClean(paths);
    CleanPathsFixed(CleanPaths(paths));
  }

  lemma {:induction false} BlockParses(tag: string, lead: string, paths: seq<string>, trailer: string)
    requires PlainTag(tag) && PlainLine(lead) && PlainTrailer(trailer)
    ensures ParsePaths(tag, Block(tag, lead, paths, trailer)) == CleanPaths(paths)
  {
    var b := Block(tag, lead, paths, trailer);
    NoOpenParsesEmpty(tag, "");
    EnvelopeRoundTrip(tag, "", lead, paths, trailer, "");
    assert "" + b + "" == b;
  }

  // ----- No block is overlooked ---------------------------------------------

  /** What the extractor returns is a closed block. */
  lemma {:induction false} ExtractIsBlock(tag: string, text: string)
    requires PlainTag(tag) && ExtractTagBlock(tag, text).Some?
    ensures IsBlock(tag, ExtractTagBlock(tag, text).value)
  {
    var start := Find(text, Open(tag)).value;
    BlockFound(tag, text, start, Find(text[start..], Close(tag)).value);
  }

  lemma {:induction false} BlockFound(tag: string, text: string, start: nat, end: nat)
    requires PlainTag(tag) && OccursAt(text, Open(tag), start) && Find(text[start..], Close(tag)) == Some(end)
    ensures start + end + |Close(tag)| <= |text| && IsBlock(tag, text[start..start + end + |Close(tag)|])
  {
    OccursFirst(text, Open(tag), start);
    CutAtClose(tag, text[start..], end);
    SliceOfTail(text, start, end + |Close(tag)|);
  }

  lemma {:induction false} OccursFirst(text: string, pat: string, i: nat)
    requires OccursAt(text, pat, i)
    ensures pat <= text[i..]
  {
    assert text[i..i + |pat|] == text[i..][..|pat|];
  }

  lemma {:induction false} SliceOfTail(text: string, start: nat, n: nat)
    requires start + n <= |text|
    ensures text[start..][..n] == text[start..start + n]
  {
  }

  lemma {:induction false} CutAtClose(tag: string, rest: string, end: nat)
    requires PlainTag(tag) && Open(tag) <= rest && Find(rest, Close(tag)) == Some(end)
    ensures end + |Close(tag)| <= |rest| && IsBlock(tag, rest[..end + |Close(tag)|])
  {
    var close := Close(tag);
    var b, more := rest[..end + |close|], rest[end + |close|..];
    CloseAfterOpen(tag, rest, end);
    assert rest == b + more;
    assert b[end..end + |close|] == rest[end..end + |close|];
    forall j | 0 <= j < end ensures !OccursAt(b, close, j) {
      OccursWithin(b, more, close, j);
      assert !OccursAt(rest, close, j);
    }
  }

  /** A closing tag does not overlap the opening tag before it. */
  lemma {:induction false} CloseAfterOpen(tag: string, rest: string, end: int)
    requires PlainTag(tag) && Open(tag) <= rest && OccursAt(rest, Close(tag), end)
    ensures |Open(tag)| <= end
  {
    var open := Open(tag);
    OccursChars(rest, Close(tag), end);
    assert rest[end + 0] == '<' && rest[end + 1] == '/';
    assert forall k :: 0 <= k < |open| ==> rest[k] == open[k];
    assert forall k :: 0 < k < |open| ==> open[k] != '<';
    assert open[1] != '/';
  }

  /** Whatever stands before a block on its first line, the block's own numbered lines are read. */
  lemma {:induction false} LinesOfBlock(p: string, b: string)
    requires b != "" && !IsSpace(b[0]) && !IsDigit(b[0])
    ensures forall q :: q in NumberedPaths(Lines(b)) ==> q in NumberedPaths(Lines(p + b))
    decreases |p|
  {
    if Free(p, '\n') {
      if Free(b, '\n') {
        LastLineSkipped(b);
      } else {
        var n := FirstNewline(b);
        assert b == b[..n] + "\n" + b[n + 1..];
        FirstLineOfBlock(p, b[..n], b[n + 1..]);
      }
    } else {
      var n := FirstNewline(p);
      var first, rest := p[..n], p[n + 1..] + b;
      assert p + b == first + "\n" + rest;
      LinesCons(first, rest);
      NumberedCons(StripCr(first), Lines(rest));
      LinesOfBlock(p[n + 1..], b);
    }
  }

  lemma {:induction false} FirstLineOfBlock(p: string, first: string, rest: string)
    requires Free(p, '\n') && Free(first, '\n') && (first == "" || (!IsSpace(first[0]) && !IsDigit(first[0])))
    ensures forall q :: q in NumberedPaths(Lines(first + "\n" + rest)) ==> q in NumberedPaths(Lines(p + (first + "\n" + rest)))
  {
    PlainSkipped(first, rest);
    Reassociate(p, first + "\n", rest);
    Reassociate(p, first, "\n");
    LinesCons(p + first, rest);
    NumberedCons(StripCr(p + first), Lines(rest));
  }

  lemma {:induction false} FirstNewline(s: string) returns (n: nat)
    requires !Free(s, '\n')
    ensures n < |s| && s[n] == '\n' && Free(s[..n], '\n')
  {
    n := 0;
    if s[0] != '\n' {
      var m := FirstNewline(s[1..]);
      n := m + 1;
      assert s[..n] == [s[0]] + s[1..][..m];
    }
  }

  /** Where the first closing tag after an earlier opening can stand: before the block, or at its end. */
  lemma {:induction false} CloseNearBlock(tag: string, text: string, b: string, i: nat, c: nat)
    requires PlainTag(tag) && IsBlock(tag, b) && OccursAt(text, b, i)
    requires OccursAt(text, Close(tag), c) && c + |Close(tag)| <= i + |b|
    ensures c + |Close(tag)| <= i || c + |Close(tag)| == i + |b|
  {
    var close := Close(tag);
    OccursChars(text, b, i);
    OccursChars(text, close, c);
    assert text[i + 0] == b[0] == '<';
    forall k | c < k < c + |close| ensures text[k] != '<' {
      assert text[c + (k - c)] == close[k - c];
    }
    if i <= c {
      assert text[c..c + |close|] == b[c - i..c - i + |close|];
      assert OccursAt(b, close, c - i);
    }
  }

  lemma {:induction false} OccursShift(text: string, pat: string, from: nat, i: int)
    requires from <= |text| && 0 <= i
    ensures OccursAt(text[from..], pat, i) <==> OccursAt(text, pat, from + i)
  {
    if i + |pat| <= |text| - from {
      assert text[from..][i..i + |pat|] == text[from + i..from + i + |pat|];
    }
  }

  /** The range the parser finds at or before a block: it ends before the block, or is the rest of it. */
  lemma {:induction false} RangeNearBlock(tag: string, text: string, b: string, i: nat)
    requires PlainTag(tag) && IsBlock(tag, b) && OccursAt(text, b, i)
    ensures
      var r := TagBlockRange(tag, text);
      r.Some? && r.value.0 <= i && (r.value.1 <= i || r.value.1 == i + |b|)
  {
    TagsOfBlock(tag, text, b, i);
    var close := Close(tag);
    var start, last := Find(text, Open(tag)).value, i + |b| - |close|;
    OccursShift(text, close, start, last - start);
    var end := Find(text[start..], close).value;
    OccursShift(text, close, start, end);
    CloseNearBlock(tag, text, b, i, start + end);
  }

  lemma {:induction false} TagsOfBlock(tag: string, text: string, b: string, i: nat)
    requires IsBlock(tag, b) && OccursAt(text, b, i)
    ensures OccursAt(text, Open(tag), i) && OccursAt(text, Close(tag), i + |b| - |Close(tag)|)
  {
    var open, close := Open(tag), Close(tag);
    var last := i + |b| - |close|;
    assert text[i..i + |open|] == text[i..i + |b|][..|open|];
    assert text[last..last + |close|] == text[i..i + |b|][|b| - |close|..];
  }

  /** Every path of a closed block is read, wherever the block stands and whatever surrounds it. */
  lemma {:induction false} BlockIsRead(tag: string, text: string, b: string, i: nat)
    requires PlainTag(tag) && IsBlock(tag, b) && OccursAt(text, b, i)
    ensures forall q :: q in NumberedPaths(Lines(b)) ==> q in ParsePaths(tag, text)
    decreases |text|
  {
    RangeNearBlock(tag, text, b, i);
    var (start, end) := TagBlockRange(tag, text).value;
    if end <= i {
      OccursShift(text, b, end, i - end);
      BlockIsRead(tag, text[end..], b, i - end);
    } else {
      assert text[start..end] == text[start..i] + b;
      assert b[0] == '<';
      LinesOfBlock(text[start..i], b);
    }
  }
}
