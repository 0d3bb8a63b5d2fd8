/** Strings as the program's standard libraries see them: searching, trimming, decimal numbers. */
module Text {
  datatype Option<+T> = None | Some(value: T)

  lemma {:induction false} Reassociate<T>(a: seq<T>, b: seq<T>, c: seq<T>)
    ensures a + b + c == a + (b + c)
  {
  }

  predicate OccursAt(text: string, pat: string, i: int) {
    0 <= i && i + |pat| <= |text| && text[i..i + |pat|] == pat
  }

  /** First occurrence of `pat`. */
  function Find(text: string, pat: string): (r: Option<nat>)
    ensures r.Some? ==> OccursAt(text, pat, r.value)
    ensures r.Some? ==> forall j :: 0 <= j < r.value ==> !OccursAt(text, pat, j)
    ensures r.None? ==> forall j :: !OccursAt(text, pat, j)
  {
    FindFrom(text, pat, 0)
  }

  function FindFrom(text: string, pat: string, from: nat): (r: Option<nat>)
    requires from <= |text|
    ensures r.Some? ==> from <= r.value && OccursAt(text, pat, r.value)
    ensures r.Some? ==> forall j :: from <= j < r.value ==> !OccursAt(text, pat, j)
    ensures r.None? ==> forall j :: from <= j ==> !OccursAt(text, pat, j)
    decreases |text| - from
  {
    if OccursAt(text, pat, from) then Some(from)
    else if from == |text| then None
    else FindFrom(text, pat, from + 1)
  }

  lemma {:induction false} FindIs(text: string, pat: string, i: nat)
    requires OccursAt(text, pat, i)
    requires forall j :: 0 <= j < i ==> !OccursAt(text, pat, j)
    ensures Find(text, pat) == Some(i)
  {
    var r := Find(text, pat);
    assert r.Some?;
    assert r.value >= i;
  }

  predicate Contains(text: string, pat: string) {
    Find(text, pat).Some?
  }

  predicate Free(s: string, c: char) {
    forall i :: 0 <= i < |s| ==> s[i] != c
  }

  // ----- White space --------------------------------------------------------

  predicate IsSpace(c: char) {
    || '\t' <= c <= '\r' || c == ' ' || c == '\U{0085}' || c == '\U{00A0}' || c == '\U{1680}'
    || '\U{2000}' <= c <= '\U{200A}' || c == '\U{2028}' || c == '\U{2029}' || c == '\U{202F}'
    || c == '\U{205F}' || c == '\U{3000}'
  }

  predicate Blank(s: string) {
    forall i :: 0 <= i < |s| ==> IsSpace(s[i])
  }

  function TrimStart(s: string): string {
    if s != "" && IsSpace(s[0]) then TrimStart(s[1..]) else s
  }

  function TrimEnd(s: string): string {
    if s != "" && IsSpace(s[|s| - 1]) then TrimEnd(s[..|s| - 1]) else s
  }

  function Trim(s: string): string {
    TrimEnd(TrimStart(s))
  }

  /** Neither end is white space. */
  predicate Trimmed(s: string) {
    s != "" && !IsSpace(s[0]) && !IsSpace(s[|s| - 1])
  }

  lemma {:induction false} TrimStartBlank(a: string, s: string)
    requires Blank(a) && (s == "" || !IsSpace(s[0]))
    ensures TrimStart(a + s) == s
  {
    if a == "" {
      assert a + s == s;
    } else {
      assert (a + s)[1..] == a[1..] + s;
      TrimStartBlank(a[1..], s);
    }
  }

  lemma {:induction false} TrimEndBlank(s: string, b: string)
    requires Blank(b) && (s == "" || !IsSpace(s[|s| - 1]))
    ensures TrimEnd(s + b) == s
  {
    if b == "" {
      assert s + b == s;
    } else {
      assert (s + b)[..|s + b| - 1] == s + b[..|b| - 1];
      TrimEndBlank(s, b[..|b| - 1]);
    }
  }

  /** Every string is white space around what `Trim` leaves; a blank one leaves nothing. */
  lemma {:induction false} TrimSplits(s: string) returns (a: string, b: string)
    ensures s == a + Trim(s) + b && Blank(a) && Blank(b)
    ensures Trim(s) == "" || Trimmed(Trim(s))
    ensures Trim(s) == "" <==> Blank(s)
  {
    a := TrimStartSplits(s);
    b := TrimEndSplits(TrimStart(s));
    var t := TrimStart(s);
    assert s == a + (Trim(s) + b);
    assert Trim(s) != "" ==> Trim(s)[0] == t[0];
    assert Trim(s) != "" ==> s[|a|] == Trim(s)[0];
  }

  lemma {:induction false} TrimStartSplits(s: string) returns (a: string)
    ensures s == a + TrimStart(s) && Blank(a)
    ensures TrimStart(s) == "" || !IsSpace(TrimStart(s)[0])
  {
    a := "";
    if s != "" && IsSpace(s[0]) {
      var rest := TrimStartSplits(s[1..]);
      a := [s[0]] + rest;
    }
  }

  lemma {:induction false} TrimEndSplits(s: string) returns (b: string)
    ensures s == TrimEnd(s) + b && Blank(b)
    ensures TrimEnd(s) == "" || !IsSpace(TrimEnd(s)[|TrimEnd(s)| - 1])
  {
    b := "";
    if s != "" && IsSpace(s[|s| - 1]) {
      var rest := TrimEndSplits(s[..|s| - 1]);
      b := rest + [s[|s| - 1]];
    }
  }

  lemma {:induction false} TrimAround(a: string, core: string, b: string)
    requires Blank(a) && Blank(b) && Trimmed(core)
    ensures Trim(a + core + b) == core
  {
    assert a + core + b == a + (core + b);
    TrimStartBlank(a, core + b);
    TrimEndBlank(core, b);
  }

  lemma {:induction false} TrimTrimmed(s: string)
    requires Trimmed(s)
    ensures Trim(s) == s
  {
    TrimAround("", s, "");
    assert "" + s + "" == s;
  }

  // ----- Decimal numbers ----------------------------------------------------

  predicate IsDigit(c: char) {
    '0' <= c <= '9'
  }

  predicate Digits(s: string) {
    s != "" && forall i :: 0 <= i < |s| ==> IsDigit(s[i])
  }

  const DIGITS: string := "0123456789"

  function Decimal(n: nat): (s: string)
    ensures Digits(s)
  {
    if n < 10 then [DIGITS[n]] else Decimal(n / 10) + [DIGITS[n % 10]]
  }

  // ----- Renames ------------------------------------------------------------

  const ARROW: string := " -> "

  lemma {:induction false} NoArrow(s: string)
    requires Free(s, '>')
    ensures Find(s, ARROW).None?
  {
    forall i | 0 <= i && i + 4 <= |s| ensures !OccursAt(s, ARROW, i) {
      assert s[i..i + 4][2] == s[i + 2];
    }
  }

  lemma {:induction false} OneArrow(a: string, b: string)
    requires Free(a, '>') && Free(b, '>')
    ensures Find(a + ARROW + b, ARROW) == Some(|a|)
  {
    var s := a + ARROW + b;
    assert s[|a|..|a| + 4] == ARROW;
    forall i | 0 <= i < |a| ensures !OccursAt(s, ARROW, i) {
      assert s[i..i + 4][2] == s[i + 2];
    }
    FindIs(s, ARROW, |a|);
  }

  // ----- Paths --------------------------------------------------------------

  function Slashes(s: string): string {
    seq(|s|, i requires 0 <= i < |s| => if s[i] == '\\' then '/' else s[i])
  }

  /** Without a quote at either end. */
  function Unquote(s: string): string {
    var t := if s != "" && s[0] == '"' then s[1..] else s;
    if t != "" && t[|t| - 1] == '"' then t[..|t| - 1] else t
  }

  /** Backslashes become slashes; nothing else changes. */
  lemma {:induction false} SlashesIs(s: string)
    ensures |Slashes(s)| == |s| && Free(Slashes(s), '\\')
    ensures forall i :: 0 <= i < |s| ==> Slashes(s)[i] == if s[i] == '\\' then '/' else s[i]
  {
  }

  /** A quoted text loses its quotes; one that neither begins nor ends in a quote stays. */
  lemma {:induction false} UnquoteIs(s: string)
    ensures Unquote("\"" + s + "\"") == s
    ensures (s != "" ==> s[0] != '"' && s[|s| - 1] != '"') ==> Unquote(s) == s
  {
    var quoted := "\"" + s + "\"";
    assert quoted[1..] == s + "\"";
    assert (s + "\"")[..|s|] == s;
  }
}
