/** Byte streams and their split into newline-terminated lines. */
module Streams {
  newtype byte = x: int | 0 <= x < 256

  const NEWLINE: byte := 10

  function Flatten(parts: seq<seq<byte>>): (s: seq<byte>)
  {
    if parts == [] then [] else parts[0] + Flatten(parts[1..])
  }

  lemma {:induction false} FlattenConcat(a: seq<seq<byte>>, b: seq<seq<byte>>)
    ensures Flatten(a + b) == Flatten(a) + Flatten(b)
  {
    if a == [] {
      assert a + b == b;
    } else {
      assert (a + b)[1..] == a[1..] + b;
      FlattenConcat(a[1..], b);
    }
  }

  lemma {:induction false} FlattenOne(p: seq<byte>)
    ensures Flatten([p]) == p
  {
    assert [p][1..] == [];
  }

  predicate Unbroken(s: seq<byte>) {
    forall k :: 0 <= k < |s| ==> s[k] != NEWLINE
  }

  predicate Terminated(s: seq<byte>) {
    s != [] && s[|s| - 1] == NEWLINE
  }

  /** A line: non-empty, with a newline at most in the last position. */
  predicate IsLine(s: seq<byte>) {
    s != [] && forall k :: 0 <= k < |s| - 1 ==> s[k] != NEWLINE
  }

  /** `n` is where the first line of `s` ends: through the first newline, or at the end. */
  predicate EndsFirstLine(s: seq<byte>, n: nat) {
    && n <= |s|
    && (forall k :: 0 <= k < n - 1 ==> s[k] != NEWLINE)
    && (n == |s| || (0 < n && s[n - 1] == NEWLINE))
  }

  function LineLength(s: seq<byte>): (n: nat)
    ensures EndsFirstLine(s, n)
    ensures n == 0 <==> s == []
  {
    if s == [] then 0
    else if s[0] == NEWLINE then 1
    else
      var m := LineLength(s[1..]);
      assert forall k :: 1 <= k < |s| ==> s[k] == s[1..][k - 1];
      m + 1
  }

  lemma {:induction false} LineLengthIs(s: seq<byte>, n: nat)
    requires EndsFirstLine(s, n)
    ensures LineLength(s) == n
  {
  }

  function Split(s: seq<byte>): (lines: seq<seq<byte>>)
    decreases |s|
  {
    if s == [] then [] else [s[..LineLength(s)]] + Split(s[LineLength(s)..])
  }

  /** Every element is a line and only the last one may lack its newline. */
  predicate IsSplit(lines: seq<seq<byte>>) {
    && (forall i :: 0 <= i < |lines| ==> IsLine(lines[i]))
    && (forall i :: 0 <= i < |lines| - 1 ==> Terminated(lines[i]))
  }

  lemma {:induction false} FirstLineOf(s: seq<byte>)
    requires s != []
    ensures IsLine(s[..LineLength(s)])
    ensures LineLength(s) < |s| ==> Terminated(s[..LineLength(s)])
  {
    var n := LineLength(s);
    assert forall k :: 0 <= k < n ==> s[..n][k] == s[k];
  }

  /** `Split` loses nothing and yields lines. */
  lemma {:induction false} SplitSound(s: seq<byte>)
    ensures Flatten(Split(s)) == s
    ensures IsSplit(Split(s))
    decreases |s|
  {
    if s != [] {
      var n := LineLength(s);
      var rest := Split(s[n..]);
      FirstLineOf(s);
      SplitSound(s[n..]);
      assert s == s[..n] + s[n..];
      assert Split(s) == [s[..n]] + rest;
      assert Split(s)[1..] == rest;
      if rest != [] {
        assert s[n..] != [];
      }
    }
  }

  /** It is the only such division: any line division of a stream is its `Split`. */
  lemma {:induction false} SplitUnique(lines: seq<seq<byte>>)
    requires IsSplit(lines)
    ensures Split(Flatten(lines)) == lines
  {
    if lines != [] {
      var rest := lines[1..];
      assert |lines| == 1 ==> rest == [];
      SplitLine(lines[0], Flatten(rest));
      SplitUnique(rest);
    }
  }

  lemma {:induction false} SplitLine(line: seq<byte>, rest: seq<byte>)
    requires IsLine(line) && (rest == [] || Terminated(line))
    ensures Split(line + rest) == [line] + Split(rest)
  {
    var s := line + rest;
    assert s[..|line|] == line && s[|line|..] == rest;
    assert forall k :: 0 <= k < |line| ==> s[k] == line[k];
    LineLengthIs(s, |line|);
  }

  lemma {:induction false} AppendToLine(line: seq<byte>, more: seq<byte>)
    requires Unbroken(line) && more != []
    ensures
      var n := LineLength(more);
      var next := line + more[..n];
      && IsLine(next)
      && Terminated(next) == (more[n - 1] == NEWLINE)
      && (!Terminated(next) ==> Unbroken(next))
  {
    var n := LineLength(more);
    assert more[..n][n - 1] == more[n - 1];
  }

  lemma {:induction false} LinePrefix(line: seq<byte>, rest: seq<byte>)
    requires IsLine(line)
    ensures |line| <= LineLength(line + rest)
    ensures Terminated(line) ==> LineLength(line + rest) == |line|
  {
    var s := line + rest;
    assert forall k :: 0 <= k < |line| ==> s[k] == line[k];
    if Terminated(line) {
      LineLengthIs(s, |line|);
    }
  }
}
