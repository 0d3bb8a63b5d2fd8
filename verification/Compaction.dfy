/**
 * Image paths carried across compactions: a compacted history lists the same
 * attached images, in the same order, as the conversation it replaces.
 */
module Compaction {
  import opened Text
  import opened ImageFiles

  /** A user item may be compaction metadata; anything else carries no image paths. */
  datatype Item = User(meta: bool, text: string) | Other

  type History = seq<Item>

  // ----- Collecting the attached paths --------------------------------------

  /** What one item contributes; only user items list images. */
  datatype Listing = Listing(meta: bool, paths: seq<string>)

  function ListingOf(tag: string, item: Item): Listing {
    if item.User? then Listing(item.meta, ParsePaths(tag, item.text)) else Listing(false, [])
  }

  function Listings(tag: string, items: History): seq<Listing> {
    seq(|items|, i requires 0 <= i < |items| => ListingOf(tag, items[i]))
  }

  /** Metadata paths, the latest item first. */
  function MetaPaths(ls: seq<Listing>): seq<string> {
    if ls == [] then [] else MetaPaths(ls[1..]) + if ls[0].meta then ls[0].paths else []
  }

  function TurnPaths(ls: seq<Listing>): seq<string> {
    if ls == [] then [] else (if ls[0].meta then [] else ls[0].paths) + TurnPaths(ls[1..])
  }

  /** Metadata describes what came before it, the later item the older paths; then the turns in order. */
  function OldestFirst(ls: seq<Listing>): seq<string> {
    MetaPaths(ls) + TurnPaths(ls)
  }

  function Chronological(tag: string, items: History): seq<string> {
    OldestFirst(Listings(tag, items))
  }

  function Excluding(paths: seq<string>, exclude: seq<string>): seq<string> {
    if paths == [] then []
    else if paths[0] in exclude then Excluding(paths[1..], exclude)
    else [paths[0]] + Excluding(paths[1..], exclude)
  }

  /** Each path once, at its latest position. */
  function KeepLast(paths: seq<string>): seq<string> {
    if paths == [] then []
    else if paths[0] in paths[1..] then KeepLast(paths[1..])
    else [paths[0]] + KeepLast(paths[1..])
  }

  function Collect(tag: string, items: History, exclude: seq<string>): seq<string> {
    KeepLast(Excluding(Chronological(tag, items), exclude))
  }

  /** The program's way: walk backwards with a set of paths already seen, then reverse. */
  method DedupNewestFirst(chronological: seq<string>) returns (r: seq<string>)
    ensures r == KeepLast(chronological)
  {
    var seen: set<string> := {};
    var newestFirst: seq<string> := [];
    for i := |chronological| downto 0
      invariant seen == set p | p in chronological[i..]
      invariant Reversed(newestFirst) == KeepLast(chronological[i..])
    {
      var p := chronological[i];
      assert chronological[i..] == [p] + chronological[i + 1..];
      assert chronological[i..][1..] == chronological[i + 1..];
      if p !in seen {
        ReversedSnoc(newestFirst, p);
        newestFirst := newestFirst + [p];
      }
      seen := seen + {p};
    }
    assert chronological[0..] == chronological;
    r := Reversed(newestFirst);
  }

  function Reversed(s: seq<string>): seq<string> {
    if s == [] then [] else Reversed(s[1..]) + [s[0]]
  }

  lemma {:induction false} ReversedSnoc(s: seq<string>, p: string)
    ensures Reversed(s + [p]) == [p] + Reversed(s)
  {
    if s == [] {
      assert s + [p] == [p];
    } else {
      assert (s + [p])[1..] == s[1..] + [p];
      ReversedSnoc(s[1..], p);
    }
  }

  // ----- Laws of deduplication ----------------------------------------------

  predicate Distinct(paths: seq<string>) {
    forall i, j :: 0 <= i < j < |paths| ==> paths[i] != paths[j]
  }

  lemma {:induction false} ExcludingMembers(paths: seq<string>, exclude: seq<string>, p: string)
    ensures p in Excluding(paths, exclude) <==> p in paths && p !in exclude
  {
    if paths != [] {
      ExcludingMembers(paths[1..], exclude, p);
    }
  }

  lemma {:induction false} ExcludingConcat(a: seq<string>, b: seq<string>, exclude: seq<string>)
    ensures Excluding(a + b, exclude) == Excluding(a, exclude) + Excluding(b, exclude)
  {
    if a == [] {
      assert a + b == b;
    } else {
      assert (a + b)[1..] == a[1..] + b;
      ExcludingConcat(a[1..], b, exclude);
    }
  }

  lemma {:induction false} ExcludingSelf(paths: seq<string>, exclude: seq<string>)
    requires forall p :: p in paths ==> p in exclude
    ensures Excluding(paths, exclude) == []
  {
    if paths != [] {
      assert paths[0] in paths;
      ExcludingSelf(paths[1..], exclude);
    }
  }

  lemma {:induction false} ExcludingNothing(paths: seq<string>)
    ensures Excluding(paths, []) == paths
  {
    if paths != [] {
      ExcludingNothing(paths[1..]);
    }
  }

  lemma {:induction false} KeepLastMembers(paths: seq<string>, p: string)
    ensures p in KeepLast(paths) <==> p in paths
  {
    if paths != [] {
      KeepLastMembers(paths[1..], p);
    }
  }

  lemma {:induction false} KeepLastCons(p: string, rest: seq<string>)
    ensures KeepLast([p] + rest) == if p in rest then KeepLast(rest) else [p] + KeepLast(rest)
  {
    assert ([p] + rest)[1..] == rest;
  }

  /** The latest positions are kept: dedup of `a + b` is `a` without `b`'s paths, then `b`. */
  lemma {:induction false} KeepLastConcat(a: seq<string>, b: seq<string>)
    ensures KeepLast(a + b) == KeepLast(Excluding(a, b)) + KeepLast(b)
  {
    if a == [] {
      assert a + b == b;
    } else {
      var p, rest := a[0], a[1..];
      assert a + b == [p] + (rest + b);
      KeepLastConcat(rest, b);
      KeepLastCons(p, rest + b);
      if p !in b {
        assert Excluding(a, b) == [p] + Excluding(rest, b);
        ExcludingMembers(rest, b, p);
        KeepLastCons(p, Excluding(rest, b));
        Reassociate([p], KeepLast(Excluding(rest, b)), KeepLast(b));
      }
    }
  }

  lemma {:induction false} KeepLastDistinct(paths: seq<string>)
    ensures Distinct(KeepLast(paths))
  {
    if paths != [] {
      KeepLastDistinct(paths[1..]);
      KeepLastMembers(paths[1..], paths[0]);
    }
  }

  lemma {:induction false} KeepLastFixed(paths: seq<string>)
    requires Distinct(paths)
    ensures KeepLast(paths) == paths
  {
    if paths != [] {
      assert Distinct(paths[1..]);
      KeepLastFixed(paths[1..]);
    }
  }

  lemma {:induction false} ExcludingFixed(paths: seq<string>, exclude: seq<string>)
    requires forall p :: p in paths ==> p !in exclude
    ensures Excluding(paths, exclude) == paths
  {
    if paths != [] {
      assert paths[0] in paths;
      ExcludingFixed(paths[1..], exclude);
    }
  }

  lemma {:induction false} KeepLastExcluding(a: seq<string>, c: seq<string>)
    ensures KeepLast(Excluding(a, c)) == Excluding(KeepLast(a), c)
  {
    if a != [] {
      var p, rest := a[0], a[1..];
      KeepLastExcluding(rest, c);
      ExcludingMembers(rest, c, p);
      KeepLastCons(p, Excluding(rest, c));
      assert ([p] + KeepLast(rest))[1..] == KeepLast(rest);
    }
  }

  /** Lists with the same dedup keep the same dedup when extended alike. */
  lemma {:induction false} KeepLastExtend(a: seq<string>, b: seq<string>, c: seq<string>)
    requires KeepLast(a) == KeepLast(b)
    ensures KeepLast(a + c) == KeepLast(b + c)
  {
    KeepLastConcat(a, c);
    KeepLastConcat(b, c);
    KeepLastExcluding(a, c);
    KeepLastExcluding(b, c);
  }

  lemma {:induction false} ExcludingTwice(paths: seq<string>, some: seq<string>, more: seq<string>)
    requires forall p :: p in some ==> p in more
    ensures Excluding(Excluding(paths, some), more) == Excluding(paths, more)
  {
    if paths != [] {
      ExcludingTwice(paths[1..], some, more);
      assert ([paths[0]] + Excluding(paths[1..], some))[1..] == Excluding(paths[1..], some);
    }
  }

  /** What collecting again gives: the old list without the carried paths, then the carried paths. */
  lemma {:induction false} RecollectExactly(all: seq<string>, last: seq<string>, carried: seq<string>)
    requires forall p :: p in last ==> p in carried
    ensures KeepLast(KeepLast(Excluding(all, last)) + carried) == Excluding(KeepLast(all), carried) + KeepLast(carried)
  {
    var attached, list := KeepLast(Excluding(all, last)), KeepLast(all);
    KeepLastConcat(attached, carried);
    KeepLastExcluding(all, last);
    ExcludingTwice(list, last, carried);
    KeepLastDistinct(all);
    KeepLastFixed(list);
    KeepLastExcluding(list, carried);
  }

  predicate EndsIn(list: seq<string>, end: seq<string>) {
    |end| <= |list| && list[|list| - |end|..] == end
  }

  /** That is the old list exactly when the old list already ended in the carried paths. */
  lemma {:induction false} SameIffEndsIn(list: seq<string>, carried: seq<string>)
    requires Distinct(list)
    ensures Excluding(list, carried) + KeepLast(carried) == list <==> EndsIn(list, KeepLast(carried))
  {
    var end := KeepLast(carried);
    if EndsIn(list, end) {
      var front := list[..|list| - |end|];
      assert list == front + end;
      forall p | p in front ensures p !in carried {
        KeepLastMembers(carried, p);
        DistinctParts(front, end, p);
      }
      forall p | p in end ensures p in carried {
        KeepLastMembers(carried, p);
      }
      ExcludingConcat(front, end, carried);
      ExcludingFixed(front, carried);
      ExcludingSelf(end, carried);
      assert front + [] == front;
    }
  }

  lemma {:induction false} DistinctParts(a: seq<string>, b: seq<string>, p: string)
    requires Distinct(a + b) && p in a
    ensures p !in b
  {
    var i :| 0 <= i < |a| && a[i] == p;
    assert (a + b)[i] == p;
    forall j | 0 <= j < |b| ensures b[j] != p {
      assert (a + b)[|a| + j] == b[j];
    }
  }

  /** An echo of paths that follow anyway adds nothing. */
  lemma {:induction false} EchoAddsNothing(echo: seq<string>, last: seq<string>)
    requires forall p :: p in echo ==> p in last
    ensures KeepLast(echo + last) == KeepLast(last)
  {
    KeepLastConcat(echo, last);
    ExcludingSelf(echo, last);
    assert [] + KeepLast(last) == KeepLast(last);
  }

  // ----- Compacting a history -----------------------------------------------

  /** The fixed wording; only its shape matters, so it may change between releases. */
  datatype Format = Format(
    tag: string, promptLead: string, promptTrailer: string, noteLead: string,
    queryOpen: string, queryClose: string)
  {
    ghost predicate Plain() {
      && PlainTag(tag) && PlainLine(promptLead) && PlainTrailer(promptTrailer) && PlainLine(noteLead)
      && queryOpen != "" && queryOpen[|queryOpen| - 1] == '\n' && NoOpen(queryOpen)
      && queryClose != "" && queryClose[0] == '\n' && NoOpen(queryClose)
    }

    predicate NoOpen(s: string) {
      Find(s, Open(tag)).None?
    }

    function Wrap(query: string): string {
      queryOpen + query + queryClose
    }

    function PromptBlock(paths: seq<string>): Option<string> {
      if paths == [] then None else Some(Block(tag, promptLead, paths, promptTrailer))
    }

    function Note(paths: seq<string>): string {
      Block(tag, noteLead, paths, "")
    }

    /** A prompt turn, and the re-added last query: the block first, unless the query carries it. */
    function QueryText(block: Option<string>, query: string): string {
      if block.Some? && !Contains(query, block.value) then block.value + "\n\n" + Wrap(query) else Wrap(query)
    }
  }

  // The wording in use, in pieces.
  const PROMPT_LEAD: seq<string> := [
    "The following images were provided", " by the user and saved to the", " workspace for future use:"]

  const PROMPT_TRAILER: seq<string> := ["These images can be copied for", " use in other locations."]

  const NOTE_LEAD: seq<seq<string>> := [
    ["Images the user attached earlier", " in this session (before the", " summary above) are saved at the"],
    [" absolute paths below. They live", " under the session directory, not", " the workspace. If one matters for"],
    [" the current task, open it with", " read_file; do not ask the user", " to re-send it."]]

  function Joined(pieces: seq<string>): string {
    if pieces == [] then "" else pieces[0] + Joined(pieces[1..])
  }

  const Shipped: Format := Format(
    "image_files", Joined(PROMPT_LEAD), "\n" + Joined(PROMPT_TRAILER) + "\n",
    Joined(NOTE_LEAD[0]) + Joined(NOTE_LEAD[1]) + Joined(NOTE_LEAD[2]), QUERY_OPEN, QUERY_CLOSE)

  const QUERY_OPEN: string := "<user_query>\n"
  const QUERY_CLOSE: string := "\n</user_query>"

  predicate PlainPiece(s: string) {
    Free(s, '<') && Free(s, '\n')
  }

  lemma {:induction false} JoinedIsPlain(pieces: seq<string>)
    requires forall i :: 0 <= i < |pieces| ==> PlainPiece(pieces[i])
    ensures PlainPiece(Joined(pieces))
    ensures pieces != [] && pieces[0] != "" ==> Joined(pieces) != "" && Joined(pieces)[0] == pieces[0][0]
  {
    if pieces != [] {
      JoinedIsPlain(pieces[1..]);
    }
  }

  lemma {:induction false} PromptLeadIsPlain()
    ensures PlainLine(Joined(PROMPT_LEAD))
  {
    assert PlainPiece(PROMPT_LEAD[0]);
    assert PlainPiece(PROMPT_LEAD[1]);
    assert PlainPiece(PROMPT_LEAD[2]);
    JoinedIsPlain(PROMPT_LEAD);
  }

  lemma {:induction false} PromptTrailerIsPlain()
    ensures PlainTrailer("\n" + Joined(PROMPT_TRAILER) + "\n")
  {
    assert PlainPiece(PROMPT_TRAILER[0]);
    assert PlainPiece(PROMPT_TRAILER[1]);
    JoinedIsPlain(PROMPT_TRAILER);
    assert PlainLine(Joined(PROMPT_TRAILER));
  }

  lemma {:induction false} NoteLead0IsPlain()
    ensures PlainPiece(Joined(NOTE_LEAD[0])) && Joined(NOTE_LEAD[0]) != "" && Joined(NOTE_LEAD[0])[0] == 'I'
  {
    assert PlainPiece(NOTE_LEAD[0][0]);
    assert PlainPiece(NOTE_LEAD[0][1]);
    assert PlainPiece(NOTE_LEAD[0][2]);
    JoinedIsPlain(NOTE_LEAD[0]);
  }

  lemma {:induction false} NoteLead1IsPlain()
    ensures PlainPiece(Joined(NOTE_LEAD[1]))
  {
    assert PlainPiece(NOTE_LEAD[1][0]);
    assert PlainPiece(NOTE_LEAD[1][1]);
    assert PlainPiece(NOTE_LEAD[1][2]);
    JoinedIsPlain(NOTE_LEAD[1]);
  }

  lemma {:induction false} NoteLead2IsPlain()
    ensures PlainPiece(Joined(NOTE_LEAD[2]))
  {
    assert PlainPiece(NOTE_LEAD[2][0]);
    assert PlainPiece(NOTE_LEAD[2][1]);
    assert PlainPiece(NOTE_LEAD[2][2]);
    JoinedIsPlain(NOTE_LEAD[2]);
  }

  lemma {:induction false} ThreePieces(a: string, b: string, c: string)
    requires PlainPiece(a) && PlainPiece(b) && PlainPiece(c) && a != "" && !IsSpace(a[0]) && !IsDigit(a[0])
    ensures PlainLine(a + b + c)
  {
  }

  lemma {:induction false} QueryTagsAreOther()
    ensures Find(QUERY_OPEN, Open("image_files")).None? && Find(QUERY_CLOSE, Open("image_files")).None?
  {
    var open := Open("image_files");
    forall i | 0 <= i && i + |open| <= |QUERY_OPEN| ensures !OccursAt(QUERY_OPEN, open, i) {
      assert QUERY_OPEN[0 + 1] != open[1];
      if OccursAt(QUERY_OPEN, open, i) {
        OccursChars(QUERY_OPEN, open, i);
      }
    }
    forall i | 0 <= i && i + |open| <= |QUERY_CLOSE| ensures !OccursAt(QUERY_CLOSE, open, i) {
      assert QUERY_CLOSE[0 + 0] != open[0] && QUERY_CLOSE[1 + 1] != open[1];
      if OccursAt(QUERY_CLOSE, open, i) {
        OccursChars(QUERY_CLOSE, open, i);
      }
    }
  }

  /** The shipped wording has the shape every result here asks for. */
  lemma {:induction false} ShippedIsPlain()
    ensures Shipped.Plain()
  {
    PromptLeadIsPlain();
    PromptTrailerIsPlain();
    NoteLead0IsPlain();
    NoteLead1IsPlain();
    NoteLead2IsPlain();
    ThreePieces(Joined(NOTE_LEAD[0]), Joined(NOTE_LEAD[1]), Joined(NOTE_LEAD[2]));
    QueryTagsAreOther();
    assert PlainTag("image_files");
  }

  /**
   * What a compaction keeps: the block of the last real user item, if it had one, and the query
   * extracted from it; the items before, between and after; and the summary.
   */
  datatype Rebuild = Rebuild(
    block: Option<string>, query: Option<string>, head: History, recent: History, summary: string, tail: History)

  function Carried(f: Format, r: Rebuild): History {
    if r.query.Some? then [User(false, f.QueryText(r.block, r.query.value))] else []
  }

  function Front(f: Format, r: Rebuild): History {
    r.head + Carried(f, r) + r.recent + [User(true, r.summary)]
  }

  function NoteItems(f: Format, attached: seq<string>): History {
    if attached == [] then [] else [User(true, f.Note(attached))]
  }

  /** The paths of the last turn's own block. */
  function OwnPaths(f: Format, r: Rebuild): seq<string> {
    if r.block.Some? then ParsePaths(f.tag, r.block.value) else []
  }

  function Attached(f: Format, h: History, r: Rebuild): seq<string> {
    Collect(f.tag, h, OwnPaths(f, r))
  }

  function Compacted(f: Format, h: History, r: Rebuild): History {
    Front(f, r) + NoteItems(f, Attached(f, h, r)) + r.tail
  }

  /** Everything a compacted history lists besides its note. */
  function CarriedPaths(f: Format, r: Rebuild): seq<string> {
    Chronological(f.tag, Front(f, r) + r.tail)
  }

  predicate Silent(tag: string, items: History) {
    forall i :: 0 <= i < |items| && items[i].User? ==> ParsePaths(tag, items[i].text) == []
  }

  lemma {:induction false} ListingsConcat(tag: string, a: History, b: History)
    ensures Listings(tag, a + b) == Listings(tag, a) + Listings(tag, b)
  {
  }

  lemma {:induction false} MetaConcat(a: seq<Listing>, b: seq<Listing>)
    ensures MetaPaths(a + b) == MetaPaths(b) + MetaPaths(a)
  {
    if a == [] {
      assert a + b == b;
    } else {
      assert (a + b)[1..] == a[1..] + b;
      MetaConcat(a[1..], b);
    }
  }

  lemma {:induction false} TurnsConcat(a: seq<Listing>, b: seq<Listing>)
    ensures TurnPaths(a + b) == TurnPaths(a) + TurnPaths(b)
  {
    if a == [] {
      assert a + b == b;
    } else {
      assert (a + b)[1..] == a[1..] + b;
      TurnsConcat(a[1..], b);
    }
  }

  predicate Quiet(ls: seq<Listing>) {
    forall i :: 0 <= i < |ls| ==> ls[i].paths == []
  }

  lemma {:induction false} SilentIsQuiet(tag: string, items: History)
    requires Silent(tag, items)
    ensures Quiet(Listings(tag, items))
  {
  }

  lemma {:induction false} QuietPaths(ls: seq<Listing>)
    requires Quiet(ls)
    ensures MetaPaths(ls) == [] && TurnPaths(ls) == []
  {
    if ls != [] {
      QuietPaths(ls[1..]);
    }
  }

  /** The order of a compacted history: the note's paths, then the carried query's. */
  lemma {:induction false} CompactedOrder(
      head: seq<Listing>, carried: seq<Listing>, recent: seq<Listing>, note: seq<Listing>, tail: seq<Listing>)
    requires Quiet(head) && Quiet(recent) && Quiet(tail)
    requires forall i :: 0 <= i < |carried| ==> !carried[i].meta
    requires forall i :: 0 <= i < |note| ==> note[i].meta
    ensures
      var all := head + carried + recent + note + tail;
      MetaPaths(all) == MetaPaths(note) && TurnPaths(all) == TurnPaths(carried)
  {
    QuietPaths(head);
    QuietPaths(recent);
    QuietPaths(tail);
    MetaConcat(head + carried + recent + note, tail);
    MetaConcat(head + carried + recent, note);
    MetaConcat(head + carried, recent);
    MetaConcat(head, carried);
    TurnsConcat(head + carried + recent + note, tail);
    TurnsConcat(head + carried + recent, note);
    TurnsConcat(head + carried, recent);
    TurnsConcat(head, carried);
    OneKind(carried, false);
    OneKind(note, true);
  }

  lemma {:induction false} OneKind(ls: seq<Listing>, meta: bool)
    requires forall i :: 0 <= i < |ls| ==> ls[i].meta == meta
    ensures if meta then TurnPaths(ls) == [] else MetaPaths(ls) == []
  {
    if ls != [] {
      OneKind(ls[1..], meta);
    }
  }

  // ----- What the carried query says ----------------------------------------

  /** No opening tag can cross a line break, so joining at one adds no opening tag. */
  lemma {:induction false} JoinNoOpen(f: Format, a: string, b: string)
    requires PlainTag(f.tag) && f.NoOpen(a) && f.NoOpen(b)
    requires (a != "" && a[|a| - 1] == '\n') || (b != "" && b[0] == '\n')
    ensures f.NoOpen(a + b)
  {
    var open := Open(f.tag);
    assert Free(open, '\n');
    forall i | 0 <= i && i + |open| <= |a + b| ensures !OccursAt(a + b, open, i) {
      if i + |open| <= |a| {
        OccursWithin(a, b, open, i);
      } else if |a| <= i {
        OccursAfter(a, b, open, i);
      } else {
        OccursAcross(a, b, open, i);
      }
    }
  }

  lemma {:induction false} OccursAfter(a: string, b: string, pat: string, i: int)
    requires |a| <= i && i + |pat| <= |a + b|
    ensures OccursAt(a + b, pat, i) == OccursAt(b, pat, i - |a|)
  {
    assert (a + b)[i..i + |pat|] == b[i - |a|..i - |a| + |pat|];
  }

  lemma {:induction false} OccursAcross(a: string, b: string, pat: string, i: int)
    requires 0 <= i < |a| < i + |pat| <= |a + b| && Free(pat, '\n')
    requires a[|a| - 1] == '\n' || b[0] == '\n'
    ensures !OccursAt(a + b, pat, i)
  {
    var k := |a| - i;
    assert (a + b)[i + k] == b[0] && (a + b)[i + (k - 1)] == a[|a| - 1];
    if OccursAt(a + b, pat, i) {
      OccursChars(a + b, pat, i);
    }
  }

  lemma {:induction false} WrapNoOpen(f: Format, query: string)
    requires f.Plain() && f.NoOpen(query)
    ensures f.NoOpen(f.Wrap(query)) && f.NoOpen("\n\n" + f.Wrap(query))
  {
    JoinNoOpen(f, f.queryOpen, query);
    JoinNoOpen(f, f.queryOpen + query, f.queryClose);
    assert f.NoOpen("\n\n") by {
      if Find("\n\n", Open(f.tag)).Some? {
        OccursChars("\n\n", Open(f.tag), Find("\n\n", Open(f.tag)).value);
        assert false;
      }
    }
    JoinNoOpen(f, "\n\n", f.Wrap(query));
  }

  /** A user turn's text: no block at all, or one block with no other opening tag around it. */
  ghost predicate TurnShape(f: Format, text: string, block: Option<string>) {
    if block.None? then f.NoOpen(text)
    else IsBlock(f.tag, block.value) && Holds(f, text, block.value)
  }

  ghost predicate Holds(f: Format, text: string, b: string) {
    exists pre, post {:trigger f.NoOpen(pre), f.NoOpen(post)} :: f.NoOpen(pre) && f.NoOpen(post) && text == pre + b + post
  }

  lemma {:induction false} TurnShapeParses(f: Format, text: string, block: Option<string>)
    requires f.Plain() && TurnShape(f, text, block)
    ensures ExtractTagBlock(f.tag, text) == block
    ensures ParsePaths(f.tag, text) == if block.Some? then ParsePaths(f.tag, block.value) else []
  {
    if block.None? {
      NoOpenParsesEmpty(f.tag, text);
    } else {
      var b := block.value;
      var pre, post :| f.NoOpen(pre) && f.NoOpen(post) && text == pre + b + post;
      ParseBlock(f.tag, pre, b, post);
      NoOpenParsesEmpty(f.tag, post);
      BlockAlone(f, b);
      assert NumberedPaths(Lines(b)) + [] == NumberedPaths(Lines(b));
    }
  }

  lemma {:induction false} BlockAlone(f: Format, b: string)
    requires PlainTag(f.tag) && IsBlock(f.tag, b)
    ensures ParsePaths(f.tag, b) == NumberedPaths(Lines(b))
  {
    assert f.NoOpen("");
    ParseBlock(f.tag, "", b, "");
    NoOpenParsesEmpty(f.tag, "");
    assert "" + b + "" == b;
    assert NumberedPaths(Lines(b)) + [] == NumberedPaths(Lines(b));
  }

  /** A query extracted from its wrapper opens no block; one extracted without a wrapper holds the turn's block. */
  ghost predicate QueryOf(f: Format, block: Option<string>, query: string) {
    f.NoOpen(query) || (block.Some? && Holds(f, query, block.value))
  }

  /** The re-added query has the shape of the turn it came from: it carries the same block, once. */
  lemma {:induction false} QueryKeepsShape(f: Format, block: Option<string>, query: string)
    requires f.Plain() && QueryOf(f, block, query) && (block.Some? ==> IsBlock(f.tag, block.value))
    ensures TurnShape(f, f.QueryText(block, query), block)
  {
    if f.NoOpen(query) {
      WrapNoOpen(f, query);
      if block.Some? {
        QueryLacksBlock(f, block.value, query);
        LeadingBlock(f, block.value, query);
      }
    } else {
      HeldBlock(f, block.value, query);
    }
  }

  lemma {:induction false} LeadingBlock(f: Format, b: string, query: string)
    requires f.NoOpen("\n\n" + f.Wrap(query)) && !Contains(query, b)
    ensures Holds(f, f.QueryText(Some(b), query), b)
  {
    var post := "\n\n" + f.Wrap(query);
    assert f.NoOpen("") && f.NoOpen(post);
    Reassociate(b, "\n\n", f.Wrap(query));
    assert "" + b == b;
  }

  lemma {:induction false} HeldBlock(f: Format, b: string, query: string)
    requires f.Plain() && Holds(f, query, b)
    ensures Holds(f, f.QueryText(Some(b), query), b)
  {
    var pre, post :| f.NoOpen(pre) && f.NoOpen(post) && query == pre + b + post;
    assert OccursAt(query, b, |pre|);
    JoinNoOpen(f, f.queryOpen, pre);
    JoinNoOpen(f, post, f.queryClose);
    WrapAround(f, pre, b, post);
    assert f.NoOpen(f.queryOpen + pre) && f.NoOpen(post + f.queryClose);
  }

  lemma {:induction false} WrapAround(f: Format, pre: string, b: string, post: string)
    ensures f.Wrap(pre + b + post) == (f.queryOpen + pre) + b + (post + f.queryClose)
  {
  }

  lemma {:induction false} QueryLacksBlock(f: Format, b: string, query: string)
    requires IsBlock(f.tag, b) && f.NoOpen(query)
    ensures !Contains(query, b)
  {
    var open := Open(f.tag);
    forall i | 0 <= i && i + |b| <= |query| ensures !OccursAt(query, b, i) {
      assert !OccursAt(query, open, i);
      assert query[i..i + |open|] == query[i..i + |b|][..|open|];
    }
  }

  /** The re-added text: the query itself, whole, wrapped and last; before it the block, unless the query holds it. */
  lemma {:induction false} QueryIsKept(f: Format, block: Option<string>, query: string)
    ensures
      var text := f.QueryText(block, query);
      exists before :: text == before + f.queryOpen + query + f.queryClose
        && before == if block.Some? && !Contains(query, block.value) then block.value + "\n\n" else ""
  {
    var before := if block.Some? && !Contains(query, block.value) then block.value + "\n\n" else "";
    Reassociate(before, f.queryOpen, query);
    Reassociate(before, f.queryOpen + query, f.queryClose);
    assert f.QueryText(block, query) == before + f.queryOpen + query + f.queryClose;
  }

  /** A compaction drops none of the items it is to keep, and its note stands right after the summary. */
  lemma {:induction false} CompactedHolds(f: Format, h: History, r: Rebuild)
    ensures
      var next := Compacted(f, h, r);
      && r.head <= next
      && |r.tail| <= |next| && next[|next| - |r.tail|..] == r.tail
      && (forall item :: item in r.recent ==> item in next)
      && User(true, r.summary) in next
      && (r.query.Some? ==> User(false, f.QueryText(r.block, r.query.value)) in next)
      && (Attached(f, h, r) != [] ==>
            exists i :: 0 < i < |next| && next[i - 1] == User(true, r.summary) && next[i] == User(true, f.Note(Attached(f, h, r))))
  {
    var front, note := Front(f, r), NoteItems(f, Attached(f, h, r));
    var next := Compacted(f, h, r);
    assert next == front + note + r.tail;
    assert front[|front| - 1] == User(true, r.summary);
    assert forall item :: item in front ==> item in next;
    assert next[|front| - 1] == User(true, r.summary);
    if note != [] {
      assert next[|front|] == note[0];
    }
  }

  // ----- One compaction, exactly --------------------------------------------

  /** Whatever the query is, the re-added item still lists all of the last turn's own paths. */
  lemma {:induction false} OwnPathsCarried(f: Format, r: Rebuild)
    requires PlainTag(f.tag) && (r.block.Some? ==> r.query.Some? && IsBlock(f.tag, r.block.value))
    ensures forall p :: p in OwnPaths(f, r) ==> p in CarriedPaths(f, r)
  {
    if r.block.Some? {
      var b, text := r.block.value, f.QueryText(r.block, r.query.value);
      BlockAlone(f, b);
      var i := BlockOccurs(f, b, r.query.value);
      BlockIsRead(f.tag, text, b, i);
      assert Carried(f, r) == [User(false, text)];
      var before, after := r.head, r.recent + [User(true, r.summary)] + r.tail;
      assert Front(f, r) + r.tail == before + [User(false, text)] + after;
      TurnIsListed(f.tag, before, text, after);
    }
  }

  lemma {:induction false} BlockOccurs(f: Format, b: string, query: string) returns (i: nat)
    ensures OccursAt(f.QueryText(Some(b), query), b, i)
  {
    if Contains(query, b) {
      i := |f.queryOpen| + Find(query, b).value;
      var j := Find(query, b).value;
      assert f.Wrap(query)[i..i + |b|] == query[j..j + |b|];
    } else {
      i := 0;
      assert (b + "\n\n" + f.Wrap(query))[0..|b|] == b;
    }
  }

  lemma {:induction false} TurnIsListed(tag: string, before: History, text: string, after: History)
    ensures forall p :: p in ParsePaths(tag, text) ==> p in Chronological(tag, before + [User(false, text)] + after)
  {
    var a, l, b := Listings(tag, before), Listing(false, ParsePaths(tag, text)), Listings(tag, after);
    ListingsConcat(tag, before + [User(false, text)], after);
    ListingsConcat(tag, before, [User(false, text)]);
    assert Listings(tag, [User(false, text)]) == [l];
    ListedAmong(a, l, b);
  }

  lemma {:induction false} ListedAmong(a: seq<Listing>, l: Listing, b: seq<Listing>)
    requires !l.meta
    ensures forall p :: p in l.paths ==> p in OldestFirst(a + [l] + b)
  {
    TurnsConcat(a + [l], b);
    TurnsConcat(a, [l]);
    assert [l][1..] == [];
    assert TurnPaths([l]) == l.paths;
  }

  /** The note lists first: the paths it gives are the oldest, whatever the other items list. */
  lemma {:induction false} NoteListsFirst(f: Format, front: History, attached: seq<string>, tail: History)
    requires f.Plain() && AllClean(attached) && MetaPaths(Listings(f.tag, tail)) == []
    ensures Chronological(f.tag, front + NoteItems(f, attached) + tail) == attached + Chronological(f.tag, front + tail)
  {
    var tag := f.tag;
    var a, n, b := Listings(tag, front), Listings(tag, NoteItems(f, attached)), Listings(tag, tail);
    NoteListing(f, attached);
    ListingsConcat(tag, front + NoteItems(f, attached), tail);
    ListingsConcat(tag, front, NoteItems(f, attached));
    ListingsConcat(tag, front, tail);
    NoteOrder(a, n, b, attached);
  }

  lemma {:induction false} NoteListing(f: Format, attached: seq<string>)
    requires f.Plain() && AllClean(attached)
    ensures
      var n := Listings(f.tag, NoteItems(f, attached));
      MetaPaths(n) == attached && TurnPaths(n) == []
  {
    if attached != [] {
      BlockParses(f.tag, f.noteLead, attached, "");
      CleanPathsFixed(attached);
      var n := [Listing(true, attached)];
      assert Listings(f.tag, NoteItems(f, attached)) == n;
      assert n[1..] == [];
    }
  }

  lemma {:induction false} NoteOrder(a: seq<Listing>, n: seq<Listing>, b: seq<Listing>, attached: seq<string>)
    requires MetaPaths(n) == attached && TurnPaths(n) == [] && MetaPaths(b) == []
    ensures OldestFirst(a + n + b) == attached + OldestFirst(a + b)
  {
    MetaConcat(a + n, b);
    MetaConcat(a, n);
    MetaConcat(a, b);
    TurnsConcat(a + n, b);
    TurnsConcat(a, n);
    TurnsConcat(a, b);
    assert TurnPaths(a) + [] == TurnPaths(a);
    assert [] + (attached + MetaPaths(a)) == attached + MetaPaths(a);
    Reassociate(attached, MetaPaths(a), TurnPaths(a) + TurnPaths(b));
  }

  /** The block, if any, was extracted from the text of a turn whose query is re-added. */
  ghost predicate FromTurn(f: Format, r: Rebuild) {
    r.block.Some? ==> r.query.Some? && exists text :: ExtractTagBlock(f.tag, text) == r.block
  }

  lemma {:induction false} FromTurnIsBlock(f: Format, r: Rebuild)
    requires PlainTag(f.tag) && FromTurn(f, r) && r.block.Some?
    ensures r.query.Some? && IsBlock(f.tag, r.block.value)
  {
    var text :| ExtractTagBlock(f.tag, text) == r.block;
    ExtractIsBlock(f.tag, text);
  }

  /**
   * One compaction of any history, with any query, summary and kept items: the list becomes the old
   * one without the carried paths, followed by the carried paths. So no path is lost, none is
   * invented, and the list is unchanged exactly when it already ended in the carried paths.
   */
  lemma {:induction false} CompactionKeepsImagesIff(f: Format, h: History, r: Rebuild)
    requires f.Plain() && FromTurn(f, r)
    requires AllClean(Attached(f, h, r)) && MetaPaths(Listings(f.tag, r.tail)) == []
    ensures
      var list, next := Collect(f.tag, h, []), Collect(f.tag, Compacted(f, h, r), []);
      var carried := CarriedPaths(f, r);
      && next == Excluding(list, carried) + KeepLast(carried)
      && (forall p :: p in next <==> p in list || p in carried)
      && (next == list <==> EndsIn(list, KeepLast(carried)))
  {
    var all, own, carried := Chronological(f.tag, h), OwnPaths(f, r), CarriedPaths(f, r);
    var next := Chronological(f.tag, Compacted(f, h, r));
    if r.block.Some? {
      FromTurnIsBlock(f, r);
    }
    OwnPathsCarried(f, r);
    NoteListsFirst(f, Front(f, r), Attached(f, h, r), r.tail);
    assert next == Attached(f, h, r) + carried;
    ExcludingNothing(all);
    ExcludingNothing(next);
    RecollectExactly(all, own, carried);
    KeepLastDistinct(all);
    SameIffEndsIn(KeepLast(all), carried);
    forall p
      ensures p in Excluding(KeepLast(all), carried) + KeepLast(carried) <==> p in KeepLast(all) || p in carried
    {
      ExcludingMembers(KeepLast(all), carried, p);
      KeepLastMembers(carried, p);
    }
  }

  // ----- Any run of turns, replies and compactions --------------------------

  /** A prompt, an item said in between, or a compaction with the query extracted for it. */
  datatype Event =
    | Turn(text: string, block: Option<string>)
    | Say(item: Item)
    | Compact(query: string, head: History, recent: History, summary: string, tail: History)

  /**
   * `given` is every path listed so far, in order; `lastText` the last turn's text; `later` the
   * paths listed since that turn by items that are not turns, such as interjections.
   */
  datatype Session = Session(h: History, lastText: Option<string>, later: seq<string>, given: seq<string>)

  const Fresh := Session([], None, [], [])

  function LastPaths(f: Format, lastText: Option<string>): seq<string> {
    if lastText.Some? then ParsePaths(f.tag, lastText.value) else []
  }

  function LastBlock(f: Format, lastText: Option<string>): Option<string> {
    if lastText.Some? then ExtractTagBlock(f.tag, lastText.value) else None
  }

  function RebuildOf(f: Format, s: Session, e: Event): Rebuild
    requires e.Compact?
  {
    Rebuild(LastBlock(f, s.lastText), if s.lastText.Some? then Some(e.query) else None, e.head, e.recent, e.summary, e.tail)
  }

  function Said(f: Format, item: Item): seq<string> {
    if item.User? then ParsePaths(f.tag, item.text) else []
  }

  function Next(f: Format, s: Session, e: Event): Session {
    match e
    case Turn(text, _) =>
      Session(s.h + [User(false, text)], Some(text), [], s.given + ParsePaths(f.tag, text))
    case Say(item) =>
      s.(h := s.h + [item], later := s.later + Said(f, item), given := s.given + Said(f, item))
    case Compact(_, _, _, _, _) =>
      var r := RebuildOf(f, s, e);
      Session(Compacted(f, s.h, r), if r.query.Some? then Some(f.QueryText(r.block, r.query.value)) else None, [], s.given)
  }

  function Run(f: Format, s: Session, events: seq<Event>): Session
    decreases |events|
  {
    if events == [] then s else Run(f, Next(f, s, events[0]), events[1..])
  }

  /**
   * Turns hold at most one block and no stray opening tag; only compactions write metadata that lists
   * images; a summary may echo the last turn's images, and the other kept items list none.
   */
  ghost predicate Ordinary(f: Format, s: Session, e: Event) {
    match e
    case Turn(text, block) => TurnShape(f, text, block) && AllClean(ParsePaths(f.tag, text))
    case Say(item) => AllClean(Said(f, item)) && (item.User? && item.meta ==> Said(f, item) == [])
    case Compact(query, head, recent, summary, tail) =>
      && QueryOf(f, LastBlock(f, s.lastText), query)
      && (forall p :: p in ParsePaths(f.tag, summary) ==> p in LastPaths(f, s.lastText))
      && Silent(f.tag, head) && Silent(f.tag, recent) && Silent(f.tag, tail)
  }

  ghost predicate AllOrdinary(f: Format, s: Session, events: seq<Event>)
    decreases |events|
  {
    events != [] ==> Ordinary(f, s, events[0]) && AllOrdinary(f, Next(f, s, events[0]), events[1..])
  }

  /** Putting the last turn's paths back at the end leaves them where they were. */
  predicate Unmoved(last: seq<string>, later: seq<string>) {
    KeepLast(last + later) == KeepLast(Excluding(later, last)) + KeepLast(last)
  }

  /** Every compaction of the run finds the last turn's paths at the end; so it does when nothing was listed since. */
  predicate NothingMoved(f: Format, s: Session, events: seq<Event>)
    decreases |events|
  {
    events != [] ==>
      && (events[0].Compact? ==> Unmoved(LastPaths(f, s.lastText), s.later))
      && NothingMoved(f, Next(f, s, events[0]), events[1..])
  }

  lemma {:induction false} NothingSinceIsUnmoved(last: seq<string>)
    ensures Unmoved(last, [])
  {
    assert last + [] == last;
    assert [] + KeepLast(last) == KeepLast(last);
  }

  ghost predicate Inv(f: Format, s: Session, older: seq<string>, block: Option<string>) {
    && Chronological(f.tag, s.h) == older + (LastPaths(f, s.lastText) + s.later)
    && (if s.lastText.Some? then TurnShape(f, s.lastText.value, block) else block.None?)
    && AllClean(Chronological(f.tag, s.h))
    && (forall p :: p in Chronological(f.tag, s.h) <==> p in s.given)
  }

  predicate InOrder(f: Format, s: Session) {
    KeepLast(Chronological(f.tag, s.h)) == KeepLast(s.given)
  }

  lemma {:induction false} AppendListing(ls: seq<Listing>, l: Listing)
    requires !l.meta || l.paths == []
    ensures OldestFirst(ls + [l]) == OldestFirst(ls) + l.paths
  {
    MetaConcat(ls, [l]);
    TurnsConcat(ls, [l]);
    assert [l][1..] == [];
    assert MetaPaths([l]) == [] && TurnPaths([l]) == l.paths;
    Reassociate(MetaPaths(ls), TurnPaths(ls), l.paths);
  }

  lemma {:induction false} AppendItem(f: Format, h: History, item: Item)
    requires item.User? && item.meta ==> Said(f, item) == []
    ensures Chronological(f.tag, h + [item]) == Chronological(f.tag, h) + Said(f, item)
  {
    var ls, l := Listings(f.tag, h), ListingOf(f.tag, item);
    assert Listings(f.tag, h + [item]) == ls + [l];
    AppendListing(ls, l);
  }

  lemma {:induction false} TurnKeeps(f: Format, s: Session, older: seq<string>, block: Option<string>, e: Event)
    requires f.Plain() && e.Turn? && Ordinary(f, s, e) && Inv(f, s, older, block)
    ensures Inv(f, Next(f, s, e), Chronological(f.tag, s.h), e.block)
    ensures InOrder(f, s) ==> InOrder(f, Next(f, s, e))
  {
    var paths := ParsePaths(f.tag, e.text);
    AppendItem(f, s.h, User(false, e.text));
    assert paths + [] == paths;
    if InOrder(f, s) {
      KeepLastExtend(Chronological(f.tag, s.h), s.given, paths);
    }
  }

  lemma {:induction false} SayKeeps(f: Format, s: Session, older: seq<string>, block: Option<string>, e: Event)
    requires f.Plain() && e.Say? && Ordinary(f, s, e) && Inv(f, s, older, block)
    ensures Inv(f, Next(f, s, e), older, block)
    ensures InOrder(f, s) ==> InOrder(f, Next(f, s, e))
  {
    var paths, last := Said(f, e.item), LastPaths(f, s.lastText);
    AppendItem(f, s.h, e.item);
    Reassociate(older, last + s.later, paths);
    Reassociate(last, s.later, paths);
    if InOrder(f, s) {
      KeepLastExtend(Chronological(f.tag, s.h), s.given, paths);
    }
  }

  /** In an ordinary session the carried paths are the summary's echo and the last turn's. */
  lemma {:induction false} CarriedInSession(f: Format, s: Session, older: seq<string>, block: Option<string>, e: Event)
    requires f.Plain() && e.Compact? && Ordinary(f, s, e) && Inv(f, s, older, block)
    ensures
      var r, last := RebuildOf(f, s, e), LastPaths(f, s.lastText);
      && r.block == block && OwnPaths(f, r) == last
      && FromTurn(f, r)
      && (r.query.Some? ==> TurnShape(f, f.QueryText(r.block, r.query.value), block)
                            && ParsePaths(f.tag, f.QueryText(r.block, r.query.value)) == last)
      && CarriedPaths(f, r) == ParsePaths(f.tag, e.summary) + last
  {
    var r, last := RebuildOf(f, s, e), LastPaths(f, s.lastText);
    if s.lastText.Some? {
      TurnShapeParses(f, s.lastText.value, block);
      QueryKeepsShape(f, block, e.query);
      TurnShapeParses(f, f.QueryText(block, e.query), block);
    }
    var carried := Carried(f, r);
    assert Listings(f.tag, carried) == if r.query.Some? then [Listing(false, last)] else [];
    FrontPaths(f.tag, e.head, carried, e.recent, e.summary, e.tail, last);
  }

  lemma {:induction false} FrontPaths(
      tag: string, head: History, carried: History, recent: History, summary: string, tail: History, last: seq<string>)
    requires Silent(tag, head) && Silent(tag, recent) && Silent(tag, tail)
    requires Listings(tag, carried) == [Listing(false, last)] || (carried == [] && last == [])
    ensures Chronological(tag, head + carried + recent + [User(true, summary)] + tail) == ParsePaths(tag, summary) + last
  {
    SilentIsQuiet(tag, head);
    SilentIsQuiet(tag, recent);
    SilentIsQuiet(tag, tail);
    ListingsOfFive(tag, head, carried, recent, [User(true, summary)], tail);
    var c, n := Listings(tag, carried), [Listing(true, ParsePaths(tag, summary))];
    assert Listings(tag, [User(true, summary)]) == n;
    OneListing(c, last);
    assert n[1..] == [] && MetaPaths(n) == ParsePaths(tag, summary);
    CompactedOrder(Listings(tag, head), c, Listings(tag, recent), n, Listings(tag, tail));
  }

  lemma {:induction false} ListingsOfFive(tag: string, a: History, b: History, c: History, d: History, e: History)
    ensures Listings(tag, a + b + c + d + e)
         == Listings(tag, a) + Listings(tag, b) + Listings(tag, c) + Listings(tag, d) + Listings(tag, e)
  {
    ListingsConcat(tag, a + b + c + d, e);
    ListingsConcat(tag, a + b + c, d);
    ListingsConcat(tag, a + b, c);
    ListingsConcat(tag, a, b);
  }

  lemma {:induction false} OneListing(c: seq<Listing>, last: seq<string>)
    requires c == [Listing(false, last)] || (c == [] && last == [])
    ensures TurnPaths(c) == last
  {
    if c != [] {
      assert c[1..] == [];
    }
  }

  lemma {:induction false} CollectedAreClean(f: Format, h: History, exclude: seq<string>)
    requires AllClean(Chronological(f.tag, h))
    ensures AllClean(Collect(f.tag, h, exclude))
  {
    var all := Chronological(f.tag, h);
    var kept := Collect(f.tag, h, exclude);
    forall i | 0 <= i < |kept| ensures IsClean(kept[i]) {
      assert kept[i] in kept;
      KeepLastMembers(Excluding(all, exclude), kept[i]);
      ExcludingMembers(all, exclude, kept[i]);
    }
  }

  /** The list a compaction changes, and the one it makes of it, cut at what the last turn and later items list. */
  lemma {:induction false} MovedIff(older: seq<string>, last: seq<string>, later: seq<string>)
    ensures
      var list := KeepLast(older + (last + later));
      Excluding(list, last) + KeepLast(last) == list <==> Unmoved(last, later)
  {
    var recent := last + later;
    var a, m := KeepLast(Excluding(older, recent)), KeepLast(recent);
    KeepLastConcat(older, recent);
    ExcludingConcat(a, m, last);
    forall p | p in a ensures p !in last {
      KeepLastMembers(Excluding(older, recent), p);
      ExcludingMembers(older, recent, p);
    }
    ExcludingFixed(a, last);
    KeepLastExcluding(recent, last);
    ExcludingConcat(last, later, last);
    ExcludingSelf(last, last);
    assert [] + Excluding(later, last) == Excluding(later, last);
    var n := KeepLast(Excluding(later, last));
    Reassociate(a, n, KeepLast(last));
    SamePrefix(a, n + KeepLast(last), m);
  }

  lemma {:induction false} SamePrefix(a: seq<string>, b: seq<string>, c: seq<string>)
    ensures a + b == a + c <==> b == c
  {
    if a + b == a + c {
      assert b == (a + b)[|a|..] && c == (a + c)[|a|..];
    }
  }

  /**
   * One compaction in an ordinary session: no path is lost or invented, and the list is unchanged
   * exactly when the last turn's paths were not followed by others.
   */
  lemma {:induction false} CompactKeeps(f: Format, s: Session, older: seq<string>, block: Option<string>, e: Event)
    requires f.Plain() && e.Compact? && Ordinary(f, s, e) && Inv(f, s, older, block)
    ensures
      var r := RebuildOf(f, s, e);
      Inv(f, Next(f, s, e), Attached(f, s.h, r) + ParsePaths(f.tag, e.summary), block)
    ensures KeepLast(Chronological(f.tag, Next(f, s, e).h)) == KeepLast(Chronological(f.tag, s.h)) <==>
              Unmoved(LastPaths(f, s.lastText), s.later)
  {
    var r, last, echo := RebuildOf(f, s, e), LastPaths(f, s.lastText), ParsePaths(f.tag, e.summary);
    var all, next := Chronological(f.tag, s.h), Chronological(f.tag, Next(f, s, e).h);
    CarriedInSession(f, s, older, block, e);
    CollectedAreClean(f, s.h, last);
    SilentIsQuiet(f.tag, e.tail);
    QuietPaths(Listings(f.tag, e.tail));
    NoteListsFirst(f, Front(f, r), Attached(f, s.h, r), r.tail);
    CompactionKeepsImagesIff(f, s.h, r);
    ExcludingNothing(all);
    ExcludingNothing(next);
    SessionAfter(f, s, older, e, all, next, Attached(f, s.h, r), echo, last);
    EchoAddsNothing(echo, last);
    ExcludingAlike(KeepLast(all), echo + last, last);
    MovedIff(older, last, s.later);
  }

  lemma {:induction false} ExcludingAlike(paths: seq<string>, a: seq<string>, b: seq<string>)
    requires forall p :: p in a <==> p in b
    ensures Excluding(paths, a) == Excluding(paths, b)
  {
    if paths != [] {
      ExcludingAlike(paths[1..], a, b);
    }
  }

  lemma {:induction false} SessionAfter(
      f: Format, s: Session, older: seq<string>, e: Event, all: seq<string>, next: seq<string>,
      attached: seq<string>, echo: seq<string>, last: seq<string>)
    requires next == attached + (echo + last) && AllClean(all) && AllClean(attached)
    requires attached == KeepLast(Excluding(all, last)) && all == older + (last + s.later)
    requires forall p :: p in echo ==> p in last
    ensures next == (attached + echo) + (last + []) && AllClean(next) && forall p :: p in next <==> p in all
  {
    Reassociate(attached, echo, last);
    assert last + [] == last;
    forall p ensures p in next <==> p in all {
      KeepLastMembers(Excluding(all, last), p);
      ExcludingMembers(all, last, p);
    }
    forall i | 0 <= i < |next| ensures IsClean(next[i]) {
      assert next[i] in all;
    }
  }

  lemma {:induction false} StepKeeps(f: Format, s: Session, older: seq<string>, block: Option<string>, e: Event)
    returns (olderNext: seq<string>, blockNext: Option<string>)
    requires f.Plain() && Inv(f, s, older, block) && Ordinary(f, s, e)
    ensures Inv(f, Next(f, s, e), olderNext, blockNext)
    ensures InOrder(f, s) && (e.Compact? ==> Unmoved(LastPaths(f, s.lastText), s.later)) ==> InOrder(f, Next(f, s, e))
  {
    match e {
      case Turn(_, _) =>
        TurnKeeps(f, s, older, block, e);
        olderNext, blockNext := Chronological(f.tag, s.h), e.block;
      case Say(_) =>
        SayKeeps(f, s, older, block, e);
        olderNext, blockNext := older, block;
      case Compact(_, _, _, _, _) =>
        CompactKeeps(f, s, older, block, e);
        olderNext, blockNext := Attached(f, s.h, RebuildOf(f, s, e)) + ParsePaths(f.tag, e.summary), block;
    }
  }

  /** Exactly the paths ever given are listed. */
  ghost predicate Complete(f: Format, s: Session) {
    forall p :: p in Chronological(f.tag, s.h) <==> p in s.given
  }

  lemma {:induction false} RunComplete(f: Format, s: Session, events: seq<Event>, older: seq<string>, block: Option<string>)
    requires f.Plain() && Inv(f, s, older, block) && AllOrdinary(f, s, events)
    ensures Complete(f, Run(f, s, events))
    decreases |events|
  {
    if events != [] {
      var olderNext, blockNext := StepKeeps(f, s, older, block, events[0]);
      RunComplete(f, Next(f, s, events[0]), events[1..], olderNext, blockNext);
    }
  }

  lemma {:induction false} RunInOrder(f: Format, s: Session, events: seq<Event>, older: seq<string>, block: Option<string>)
    requires f.Plain() && Inv(f, s, older, block) && AllOrdinary(f, s, events)
    requires InOrder(f, s) && NothingMoved(f, s, events)
    ensures InOrder(f, Run(f, s, events))
    decreases |events|
  {
    if events != [] {
      var olderNext, blockNext := StepKeeps(f, s, older, block, events[0]);
      RunInOrder(f, Next(f, s, events[0]), events[1..], olderNext, blockNext);
    }
  }

  lemma {:induction false} CompleteList(f: Format, s: Session)
    requires Complete(f, s)
    ensures Collect(f.tag, s.h, []) == KeepLast(Chronological(f.tag, s.h))
    ensures forall p :: p in Collect(f.tag, s.h, []) <==> p in s.given
  {
    ExcludingNothing(Chronological(f.tag, s.h));
    forall p ensures p in Collect(f.tag, s.h, []) <==> p in s.given {
      KeepLastMembers(Chronological(f.tag, s.h), p);
    }
  }

  lemma {:induction false} FreshInv(f: Format)
    ensures Inv(f, Fresh, [], None) && InOrder(f, Fresh)
  {
    assert Listings(f.tag, []) == [];
  }

  /**
   * After any ordinary run of turns, other items and compactions, the images listed are exactly those
   * ever listed; and if no compaction found the last turn's followed by others, they stand as in the
   * whole uncompacted conversation: every path once, at its latest position.
   */
  lemma {:induction false} ImagesSurviveCompactions(f: Format, events: seq<Event>)
    requires f.Plain() && AllOrdinary(f, Fresh, events)
    ensures
      var s := Run(f, Fresh, events);
      && (forall p :: p in Collect(f.tag, s.h, []) <==> p in s.given)
      && (NothingMoved(f, Fresh, events) ==> Collect(f.tag, s.h, []) == KeepLast(s.given))
  {
    FreshInv(f);
    RunComplete(f, Fresh, events, [], None);
    CompleteList(f, Run(f, Fresh, events));
    if NothingMoved(f, Fresh, events) {
      RunInOrder(f, Fresh, events, [], None);
    }
  }

  /** A prompt as the program renders it is an ordinary turn that lists its paths, cleaned. */
  lemma {:induction false} PromptIsOrdinary(f: Format, s: Session, paths: seq<string>, query: string)
    requires f.Plain() && f.NoOpen(query)
    ensures
      var text := f.QueryText(f.PromptBlock(paths), query);
      Ordinary(f, s, Turn(text, f.PromptBlock(paths))) && ParsePaths(f.tag, text) == CleanPaths(paths)
  {
    var b := f.PromptBlock(paths);
    if b.Some? {
      TrailerIsFree(f.promptTrailer);
      BlockIsBlock(f.tag, f.promptLead, paths, f.promptTrailer);
      BlockParses(f.tag, f.promptLead, paths, f.promptTrailer);
    }
    QueryKeepsShape(f, b, query);
    TurnShapeParses(f, f.QueryText(b, query), b);
    CleanPathsClean(paths);
  }

  function FirstTurn(f: Format, a: string, query: string): Session {
    Next(f, Fresh, Turn(f.QueryText(f.PromptBlock([a]), query), f.PromptBlock([a])))
  }

  lemma {:induction false} FirstTurnIs(f: Format, a: string, query: string)
    requires f.Plain() && IsClean(a) && f.NoOpen(query)
    ensures
      var s := FirstTurn(f, a, query);
      Inv(f, s, [], f.PromptBlock([a])) && LastPaths(f, s.lastText) == [a] && s.later == []
  {
    FreshInv(f);
    CleanPathsFixed([a]);
    PromptIsOrdinary(f, Fresh, [a], query);
    assert Listings(f.tag, []) == [];
    TurnKeeps(f, Fresh, [], None, Turn(f.QueryText(f.PromptBlock([a]), query), f.PromptBlock([a])));
  }

  /** A session of one turn with image `a` and then an interjection with image `b`. */
  function Interjected(f: Format, a: string, b: string, query: string): Session {
    Next(f, FirstTurn(f, a, query), Say(User(false, f.Note([b]))))
  }

  lemma {:induction false} InterjectedIs(f: Format, a: string, b: string, query: string)
    requires f.Plain() && IsClean(a) && IsClean(b) && f.NoOpen(query)
    ensures
      var s := Interjected(f, a, b, query);
      Inv(f, s, [], f.PromptBlock([a])) && LastPaths(f, s.lastText) == [a] && s.later == [b]
  {
    FirstTurnIs(f, a, query);
    CleanPathsFixed([b]);
    BlockParses(f.tag, f.noteLead, [b], "");
    SayKeeps(f, FirstTurn(f, a, query), [], f.PromptBlock([a]), Say(User(false, f.Note([b]))));
  }

  lemma {:induction false} LaterImageMoves(f: Format, s: Session, block: Option<string>, e: Event, a: string, b: string)
    requires f.Plain() && e.Compact? && Ordinary(f, s, e) && Inv(f, s, [], block) && ParsePaths(f.tag, e.summary) == []
    requires LastPaths(f, s.lastText) == [a] && s.later == [b] && a != b
    ensures Collect(f.tag, s.h, []) == [a, b] && Collect(f.tag, Next(f, s, e).h, []) == [b, a]
  {
    var r := RebuildOf(f, s, e);
    assert Chronological(f.tag, s.h) == [a, b];
    ExcludingNothing([a, b]);
    PairMoves(a, b);
    CarriedInSession(f, s, [], block, e);
    assert CarriedPaths(f, r) == [a];
    CollectedAreClean(f, s.h, [a]);
    SilentIsQuiet(f.tag, e.tail);
    QuietPaths(Listings(f.tag, e.tail));
    CompactionKeepsImagesIff(f, s.h, r);
  }

  /** An image listed after the last turn's, by an item that is not a turn, changes places with it. */
  lemma {:induction false} InterjectedImageMoves(f: Format, a: string, b: string, query: string, summary: string)
    requires f.Plain() && IsClean(a) && IsClean(b) && a != b && f.NoOpen(query) && ParsePaths(f.tag, summary) == []
    ensures
      var s := Interjected(f, a, b, query);
      && Collect(f.tag, s.h, []) == [a, b]
      && Collect(f.tag, Next(f, s, Compact(query, [], [], summary, [])).h, []) == [b, a]
  {
    InterjectedIs(f, a, b, query);
    LaterImageMoves(f, Interjected(f, a, b, query), f.PromptBlock([a]), Compact(query, [], [], summary, []), a, b);
  }

  lemma {:induction false} PairMoves(a: string, b: string)
    requires a != b
    ensures KeepLast([a, b]) == [a, b] && Excluding([a, b], [a]) + KeepLast([a]) == [b, a]
  {
    assert [a, b][1..] == [b] && [b][1..] == [] && [a][1..] == [];
    assert KeepLast([b]) == [b] && KeepLast([a]) == [a];
    assert Excluding([b], [a]) == [b];
  }
}
