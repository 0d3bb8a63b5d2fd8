/**
 * The cancel-safe line reader: a task fills lines from a buffered source and
 * queues them, a consumer drains them through `poll_read` with any buffer size.
 */
module LineReader {
  import opened Streams

  const MAX_LINE_SIZE: nat := 64 * 1024 * 1024

  /** A bounded futures channel of 64 gives its single sender one extra slot. */
  const QUEUE_CAPACITY: nat := 65

  datatype Failure = TooLong | SourceError

  datatype Item = Line(bytes: seq<byte>) | Broken(why: Failure)

  /** A buffered reader over a source that delivers `chunks` and then ends or fails. */
  datatype Source = Source(buffered: seq<byte>, chunks: seq<seq<byte>>, fails: bool) {
    predicate Valid() {
      forall i :: 0 <= i < |chunks| ==> chunks[i] != []
    }

    function Unread(): seq<byte> {
      buffered + Flatten(chunks)
    }

    /** Bytes `fill_buf` makes available; empty only at the end of the source. */
    function Available(): seq<byte> {
      if buffered != [] then buffered else if chunks != [] then chunks[0] else []
    }

    function Consume(n: nat): (s: Source)
      requires n <= |Available()|
    {
      if buffered != [] then this.(buffered := buffered[n..])
      else if chunks != [] then this.(buffered := chunks[0][n..], chunks := chunks[1..])
      else this
    }

    lemma {:induction false} ConsumeUnread(n: nat)
      requires Valid() && n <= |Available()|
      ensures Consume(n).Valid() && Consume(n).fails == fails
      ensures Unread() == Available()[..n] + Consume(n).Unread()
      ensures Available() == [] ==> Unread() == []
    {
      if buffered != [] {
        assert buffered == buffered[..n] + buffered[n..];
      } else if chunks != [] {
        assert chunks[0] == chunks[0][..n] + chunks[0][n..];
      }
    }

    /** No single fill of this source is larger than `m`. */
    predicate FillsWithin(m: nat) {
      |buffered| <= m && forall i :: 0 <= i < |chunks| ==> |chunks[i]| <= m
    }

    lemma {:induction false} ConsumeWithin(m: nat, n: nat)
      requires FillsWithin(m) && n <= |Available()|
      ensures n <= m && Consume(n).FillsWithin(m)
    {
    }
  }

  // ----- Reading one line ---------------------------------------------------

  /** What reading one line from a stream `s` that may fail at its end amounts to. */
  datatype LineOutcome = Read(line: seq<byte>) | Failed(why: Failure)

  function FirstLine(s: seq<byte>, fails: bool): (o: LineOutcome)
  {
    var n := LineLength(s);
    if n > MAX_LINE_SIZE then Failed(TooLong)
    else if fails && !Terminated(s[..n]) then Failed(SourceError)
    else Read(s[..n])
  }

  class BufReader {
    var src: Source

    ghost predicate Valid() reads this { src.Valid() }

    constructor (src: Source)
      requires src.Valid()
      ensures Valid() && this.src == src
    {
      this.src := src;
    }

    /** Empty result at the end of the stream; `failed` when the source errs. */
    method FillBuf() returns (available: seq<byte>, failed: bool)
      ensures available == src.Available()
      ensures failed == (available == [] && src.fails)
    {
      available := src.Available();
      failed := available == [] && src.fails;
    }

    method Consume(n: nat)
      requires n <= |src.Available()|
      modifies this
      ensures src == old(src).Consume(n)
    {
      src := src.Consume(n);
    }
  }

  /** `line` is what has been read so far of the first line of `all`. */
  predicate Partial(all: seq<byte>, line: seq<byte>, src: Source) {
    src.Valid() && all == line + src.Unread() && Unbroken(line) && |line| <= MAX_LINE_SIZE
  }

  /** Bytes one fill takes: through the first newline available, or all of it. */
  function FillTake(src: Source): (n: nat)
    ensures n <= |src.Available()|
  {
    LineLength(src.Available())
  }

  function Extended(line: seq<byte>, src: Source): seq<byte> {
    line + src.Available()[..FillTake(src)]
  }

  predicate FillEndsLine(src: Source) {
    src.Available() != [] && src.Available()[FillTake(src) - 1] == NEWLINE
  }

  lemma {:induction false} FillExtends(all: seq<byte>, line: seq<byte>, src: Source)
    requires Partial(all, line, src) && src.Available() != []
    ensures Terminated(Extended(line, src)) <==> FillEndsLine(src)
    ensures
      var next, rest := Extended(line, src), src.Consume(FillTake(src));
      && rest.Valid() && rest.fails == src.fails
      && all == next + rest.Unread()
      && |rest.Unread()| < |src.Unread()|
      && IsLine(next) && |next| <= LineLength(all)
      && (!Terminated(next) ==> Unbroken(next))
      && (Terminated(next) ==> |next| == LineLength(all))
      && (|next| > MAX_LINE_SIZE ==> FirstLine(all, src.fails) == Failed(TooLong))
      && (|next| <= MAX_LINE_SIZE && Terminated(next) ==> FirstLine(all, src.fails) == Read(next))
  {
    var next, rest := Extended(line, src), src.Consume(FillTake(src));
    AppendToLine(line, src.Available());
    src.ConsumeUnread(FillTake(src));
    assert all == next + rest.Unread();
    LinePrefix(next, rest.Unread());
    assert all[..|next|] == next;
  }

  lemma {:induction false} NothingLeft(all: seq<byte>, line: seq<byte>, src: Source)
    requires Partial(all, line, src) && src.Available() == []
    ensures all == line && LineLength(all) == |all|
    ensures all != [] ==> IsLine(all)
    ensures FirstLine(all, src.fails) == if src.fails then Failed(SourceError) else Read(all)
  {
    src.ConsumeUnread(0);
    LineLengthIs(all, |all|);
    assert all[..|all|] == all;
  }

  /**
   * Reads one line, checking the size after every fill. The outcome depends on
   * the stream alone, never on how the source was chunked, and the buffer stays
   * within the limit plus one fill.
   */
  method ReadLineCapped(reader: BufReader, ghost widest: nat) returns (r: LineOutcome, buf: seq<byte>)
    requires reader.Valid() && reader.src.FillsWithin(widest)
    modifies reader
    ensures reader.Valid()
    ensures r == FirstLine(old(reader.src.Unread()), old(reader.src.fails))
    ensures r.Read? ==> buf == r.line
    ensures old(reader.src.Unread()) == buf + reader.src.Unread()
    ensures |buf| <= LineLength(old(reader.src.Unread()))
    ensures |buf| <= MAX_LINE_SIZE + widest
  {
    ghost var all := reader.src.Unread();
    buf := [];
    while true
      invariant Partial(all, buf, reader.src)
      invariant reader.src.fails == old(reader.src.fails)
      invariant reader.src.FillsWithin(widest)
      decreases |reader.src.Unread()|
    {
      ghost var before := reader.src;
      var available, failed := reader.FillBuf();
      if available == [] {
        NothingLeft(all, buf, before);
        return if failed then Failed(SourceError) else Read(buf), buf;
      }
      var consumed := LineLength(available);
      var done := available[consumed - 1] == NEWLINE;
      assert done == FillEndsLine(before);
      FillExtends(all, buf, before);
      before.ConsumeWithin(widest, FillTake(before));
      buf := buf + available[..consumed];
      reader.Consume(consumed);
      if |buf| > MAX_LINE_SIZE {
        return Failed(TooLong), buf;
      }
      if done {
        return Read(buf), buf;
      }
    }
  }

  // ----- Serving the consumer -----------------------------------------------

  datatype PollResult = Pending | Ready(bytes: seq<byte>) | Error(why: Failure)

  datatype PollStep = PollStep(result: PollResult, stash: seq<byte>, queue: seq<Item>)

  /** The queued bytes, in order. */
  function Queued(queue: seq<Item>): seq<byte> {
    if queue == [] then []
    else (if queue[0].Line? then queue[0].bytes else []) + Queued(queue[1..])
  }

  /**
   * One `poll_read` into a buffer with `room` bytes: serve the stash, or take
   * the next item, keeping whatever does not fit. A closed empty queue reads 0.
   */
  function Poll(stash: seq<byte>, queue: seq<Item>, closed: bool, room: nat): (p: PollStep)
  {
    if stash != [] then
      var n := if |stash| <= room then |stash| else room;
      PollStep(Ready(stash[..n]), stash[n..], queue)
    else if queue == [] then
      PollStep(if closed then Ready([]) else Pending, [], [])
    else match queue[0]
      case Broken(why) => PollStep(Error(why), [], queue[1..])
      case Line(bytes) =>
        var n := if |bytes| <= room then |bytes| else room;
        PollStep(Ready(bytes[..n]), bytes[n..], queue[1..])
  }

  /** A poll hands out no more than fits and conserves every byte. */
  lemma {:induction false} PollConserves(stash: seq<byte>, queue: seq<Item>, closed: bool, room: nat)
    ensures
      var p := Poll(stash, queue, closed, room);
      && (p.result.Ready? ==> |p.result.bytes| <= room
                              && stash + Queued(queue) == p.result.bytes + p.stash + Queued(p.queue))
      && (!p.result.Ready? ==> p.stash == stash && Queued(queue) == Queued(p.queue))
  {
    var p := Poll(stash, queue, closed, room);
    if stash != [] {
      assert stash == p.result.bytes + p.stash;
    } else if queue != [] && queue[0].Line? {
      assert queue[0].bytes == p.result.bytes + p.stash;
      assert stash + Queued(queue) == queue[0].bytes + Queued(p.queue);
    }
  }

  /** It waits only when there is nothing to serve, and reads 0 into a buffer only at the end. */
  lemma {:induction false} PollIsExact(stash: seq<byte>, queue: seq<Item>, closed: bool, room: nat)
    ensures
      var r := Poll(stash, queue, closed, room).result;
      && (r.Pending? <==> stash == [] && queue == [] && !closed)
      && (r.Error? <==> stash == [] && queue != [] && queue[0].Broken?)
      && (r.Ready? && stash != [] ==> |r.bytes| == if room < |stash| then room else |stash|)
      && (r.Ready? && stash == [] && queue != [] ==>
            |r.bytes| == if room < |queue[0].bytes| then room else |queue[0].bytes|)
      && (r == Ready([]) && room > 0 && (queue != [] ==> queue[0] != Line([])) ==>
            stash == [] && queue == [] && closed)
  {
  }

  /** The reader handle: the line being served, a cursor into it, and the queue. */
  class LineBufferedRead {
    var buf: seq<byte>
    var pos: nat
    var rx: seq<Item>
    var closed: bool

    ghost predicate Valid() reads this { (buf == [] && pos == 0) || pos < |buf| }

    ghost function Stash(): seq<byte> reads this requires Valid() { buf[pos..] }

    constructor ()
      ensures Valid() && Stash() == [] && rx == [] && !closed
    {
      buf, pos, rx, closed := [], 0, [], false;
    }

    method PollRead(room: nat) returns (r: PollResult)
      requires Valid()
      modifies this
      ensures Valid() && closed == old(closed)
      ensures PollStep(r, Stash(), rx) == Poll(old(Stash()), old(rx), closed, room)
    {
      if pos < |buf| {
        var avail := |buf| - pos;
        var n := if avail <= room then avail else room;
        r := Ready(buf[pos..pos + n]);
        assert r.bytes == Stash()[..n] && Stash()[n..] == buf[pos + n..];
        pos := pos + n;
        if pos >= |buf| {
          buf, pos := [], 0;
        }
        return;
      }
      if rx == [] {
        return if closed then Ready([]) else Pending;
      }
      var item := rx[0];
      rx := rx[1..];
      match item {
        case Broken(why) => r := Error(why);
        case Line(line) =>
          var n := if |line| <= room then |line| else room;
          r := Ready(line[..n]);
          if n < |line| {
            buf, pos := line, n;
          }
      }
    }
  }

  // ----- The reader task and every interleaving with the consumer -----------

  datatype Phase = Reading | Sending(item: Item) | Finished

  /**
   * `line` is the task's buffer, `taken` the lines the consumer has received
   * from the queue, `served` the bytes it has read out of them.
   */
  datatype System = System(
    src: Source, line: seq<byte>, phase: Phase,
    queue: seq<Item>, stash: seq<byte>,
    taken: seq<seq<byte>>, served: seq<byte>, reported: bool)

  function Start(src: Source): System {
    System(src, [], Reading, [], [], [], [], false)
  }

  datatype Step = Fill | Send | ReadInto(room: nat)

  /** One iteration of `read_line_capped` in the task. */
  function FillStep(s: System): System
  {
    if s.phase != Reading then s
    else if s.src.Available() == [] then
      if s.src.fails then s.(phase := Sending(Broken(SourceError)))
      else if s.line == [] then s.(phase := Finished)
      else s.(phase := Sending(Line(s.line)), line := [])
    else
      var next, rest := Extended(s.line, s.src), s.src.Consume(FillTake(s.src));
      if |next| > MAX_LINE_SIZE then s.(src := rest, line := next, phase := Sending(Broken(TooLong)))
      else if FillEndsLine(s.src) then s.(src := rest, line := [], phase := Sending(Line(next)))
      else s.(src := rest, line := next)
  }

  /** The task waits while the queue is full; an error is its last message. */
  function SendStep(s: System): System
  {
    if s.phase.Sending? && |s.queue| < QUEUE_CAPACITY then
      s.(queue := s.queue + [s.phase.item], phase := if s.phase.item.Line? then Reading else Finished)
    else s
  }

  function ReadResult(s: System, room: nat): PollResult {
    Poll(s.stash, s.queue, s.phase == Finished, room).result
  }

  function ReadStep(s: System, room: nat): System
  {
    var p := Poll(s.stash, s.queue, s.phase == Finished, room);
    var took := s.stash == [] && s.queue != [] && s.queue[0].Line?;
    System(s.src, s.line, s.phase, p.queue, p.stash,
      if took then s.taken + [s.queue[0].bytes] else s.taken,
      if p.result.Ready? then s.served + p.result.bytes else s.served,
      s.reported || p.result.Error?)
  }

  function Next(s: System, step: Step): System {
    match step
    case Fill => FillStep(s)
    case Send => SendStep(s)
    case ReadInto(room) => ReadStep(s, room)
  }

  function Run(s: System, steps: seq<Step>): System
    decreases |steps|
  {
    if steps == [] then s else Run(Next(s, steps[0]), steps[1..])
  }

  function LinesIn(queue: seq<Item>): seq<seq<byte>> {
    if queue == [] then []
    else (if queue[0].Line? then [queue[0].bytes] else []) + LinesIn(queue[1..])
  }

  function Held(s: System): seq<Item> {
    s.queue + if s.phase.Sending? then [s.phase.item] else []
  }

  function Remaining(s: System): seq<byte> {
    s.line + s.src.Unread()
  }

  /** Queued lines are non-empty; only the last item may be an error, and it reports `next`. */
  predicate ItemsOk(held: seq<Item>, next: LineOutcome) {
    forall i :: 0 <= i < |held| ==>
      match held[i]
      case Line(bytes) => bytes != []
      case Broken(why) => i == |held| - 1 && next == Failed(why)
  }

  predicate OnlyLines(queue: seq<Item>) {
    forall i :: 0 <= i < |queue| ==> queue[i].Line? && queue[i].bytes != []
  }

  function Upcoming(s: System): LineOutcome {
    FirstLine(Remaining(s), s.src.fails)
  }

  /** The lines taken, held and still to come are the lines of `all`; those taken are what was served or stashed. */
  ghost predicate LinesAdd(s: System, all: seq<byte>) {
    && Split(all) == s.taken + LinesIn(Held(s)) + Split(Remaining(s))
    && Flatten(s.taken) == s.served + s.stash
  }

  /** What is held agrees with the phase of the task. */
  predicate TaskOk(s: System) {
    && ItemsOk(Held(s), Upcoming(s))
    && (!s.phase.Finished? ==> OnlyLines(s.queue))
    && (s.phase.Reading? ==> Unbroken(s.line) && |s.line| <= MAX_LINE_SIZE)
    && (s.phase.Sending? && s.phase.item.Line? ==> s.line == [])
    && (s.phase.Finished? ==> Remaining(s) == [] || s.reported || (s.queue != [] && s.queue[|s.queue| - 1].Broken?))
    && (s.reported ==> s.phase.Finished? && s.queue == [])
  }

  /** Holds in every reachable state. */
  ghost predicate Inv(s: System, all: seq<byte>) {
    s.src.Valid() && LinesAdd(s, all) && TaskOk(s)
  }

  lemma {:induction false} LinesInConcat(a: seq<Item>, b: seq<Item>)
    ensures LinesIn(a + b) == LinesIn(a) + LinesIn(b)
  {
    if a == [] {
      assert a + b == b;
    } else {
      assert (a + b)[1..] == a[1..] + b;
      LinesInConcat(a[1..], b);
    }
  }

  lemma {:induction false} LinesInOne(item: Item)
    ensures LinesIn([item]) == if item.Line? then [item.bytes] else []
  {
    assert [item][1..] == [];
  }

  lemma {:induction false} StartInv(src: Source)
    requires src.Valid()
    ensures Inv(Start(src), src.Unread())
  {
    var s := Start(src);
    assert Held(s) == [];
    assert Remaining(s) == src.Unread();
  }

  /** What a fill does to the task's share: it hands over the next line, or nothing. */
  ghost predicate Fills(s: System, t: System) {
    && s.phase == Reading && t == s.(src := t.src, line := t.line, phase := t.phase) && t.src.Valid()
    && (if t.phase.Sending? && t.phase.item.Line? then
          t.phase.item.bytes != [] && t.line == [] && Split(Remaining(s)) == [t.phase.item.bytes] + Split(Remaining(t))
        else Remaining(t) == Remaining(s))
    && (t.phase.Sending? && t.phase.item.Broken? ==> Upcoming(t) == Failed(t.phase.item.why))
    && (t.phase.Reading? ==> Unbroken(t.line) && |t.line| <= MAX_LINE_SIZE)
    && (t.phase.Finished? ==> Remaining(t) == [])
  }

  lemma {:induction false} Regroup<T>(a: seq<T>, b: seq<T>, x: seq<T>, c: seq<T>)
    ensures a + b + (x + c) == a + (b + x) + c && a + (x + b) + c == (a + x) + b + c
  {
  }

  lemma {:induction false} FillAdds(s: System, t: System, all: seq<byte>)
    requires LinesAdd(s, all) && Fills(s, t)
    ensures LinesAdd(t, all)
  {
    assert Held(s) == s.queue;
    if t.phase.Sending? {
      assert Held(t) == s.queue + [t.phase.item];
      LinesInConcat(s.queue, [t.phase.item]);
      LinesInOne(t.phase.item);
      if t.phase.item.Line? {
        Regroup(s.taken, LinesIn(s.queue), [t.phase.item.bytes], Split(Remaining(t)));
      } else {
        assert LinesIn(s.queue) + [] == LinesIn(s.queue);
      }
    } else {
      assert Held(t) == s.queue;
    }
  }

  lemma {:induction false} FillTaskOk(s: System, t: System)
    requires TaskOk(s) && Fills(s, t)
    ensures TaskOk(t)
  {
    assert Held(s) == s.queue;
    if t.phase.Sending? {
      assert Held(t) == s.queue + [t.phase.item];
    } else {
      assert Held(t) == s.queue;
    }
  }

  lemma {:induction false} FillAtEnd(s: System)
    requires s.src.Valid() && TaskOk(s) && s.phase == Reading && s.src.Available() == []
    ensures Fills(s, FillStep(s))
  {
    var t := FillStep(s);
    NothingLeft(Remaining(s), s.line, s.src);
    s.src.ConsumeUnread(0);
    if s.line != [] {
      SplitLine(s.line, []);
      assert s.line + [] == s.line;
      assert Remaining(t) == t.line;
    }
  }

  lemma {:induction false} FillFromSource(s: System)
    requires s.src.Valid() && TaskOk(s) && s.phase == Reading && s.src.Available() != []
    ensures Fills(s, FillStep(s))
  {
    var t := FillStep(s);
    FillExtends(Remaining(s), s.line, s.src);
    var next, rest := Extended(s.line, s.src), s.src.Consume(FillTake(s.src));
    if FillEndsLine(s.src) && |next| <= MAX_LINE_SIZE {
      assert Remaining(t) == rest.Unread();
      SplitLine(next, rest.Unread());
    }
  }

  lemma {:induction false} FillKeeps(s: System, all: seq<byte>)
    requires Inv(s, all) && s.phase == Reading
    ensures Inv(FillStep(s), all)
  {
    if s.src.Available() == [] {
      FillAtEnd(s);
    } else {
      FillFromSource(s);
    }
    FillAdds(s, FillStep(s), all);
    FillTaskOk(s, FillStep(s));
  }

  lemma {:induction false} SendKeeps(s: System, all: seq<byte>)
    requires Inv(s, all)
    ensures Inv(SendStep(s), all)
  {
    var t := SendStep(s);
    if t != s {
      assert Held(t) == Held(s);
    }
  }

  lemma {:induction false} HeldAfterTake(s: System, room: nat)
    requires s.stash == [] && s.queue != []
    ensures Held(s) == [s.queue[0]] + Held(ReadStep(s, room))
    ensures LinesIn(Held(s)) == LinesIn([s.queue[0]]) + LinesIn(Held(ReadStep(s, room)))
  {
    var t := ReadStep(s, room);
    assert s.queue == [s.queue[0]] + t.queue;
    assert Held(s) == [s.queue[0]] + Held(t);
    LinesInConcat([s.queue[0]], Held(t));
  }

  lemma {:induction false} TakeMoves(s: System, room: nat)
    requires s.stash == [] && s.queue != []
    ensures
      var t := ReadStep(s, room);
      && t.taken == s.taken + LinesIn([s.queue[0]])
      && t.served + t.stash == s.served + Flatten(LinesIn([s.queue[0]]))
  {
    var t, item := ReadStep(s, room), s.queue[0];
    LinesInOne(item);
    if item.Line? {
      assert t.served + t.stash == s.served + item.bytes;
      FlattenOne(item.bytes);
    } else {
      assert s.taken + [] == s.taken;
      assert s.served + [] == s.served;
    }
  }

  lemma {:induction false} TakeServes(s: System, room: nat)
    requires Flatten(s.taken) == s.served + s.stash && s.stash == [] && s.queue != []
    ensures Flatten(ReadStep(s, room).taken) == ReadStep(s, room).served + ReadStep(s, room).stash
  {
    assert s.served + s.stash == s.served;
    TakeMoves(s, room);
    FlattenConcat(s.taken, LinesIn([s.queue[0]]));
  }

  lemma {:induction false} TakeAdds(s: System, room: nat, all: seq<byte>)
    requires LinesAdd(s, all) && s.stash == [] && s.queue != []
    ensures LinesAdd(ReadStep(s, room), all)
  {
    var t := ReadStep(s, room);
    HeldAfterTake(s, room);
    TakeMoves(s, room);
    TakeServes(s, room);
    assert Remaining(t) == Remaining(s);
    Regroup(s.taken, LinesIn(Held(t)), LinesIn([s.queue[0]]), Split(Remaining(s)));
  }

  lemma {:induction false} TakeTaskOk(s: System, room: nat)
    requires TaskOk(s) && s.stash == [] && s.queue != []
    ensures TaskOk(ReadStep(s, room))
  {
    var t := ReadStep(s, room);
    HeldAfterTake(s, room);
    assert Upcoming(t) == Upcoming(s);
    assert forall i :: 0 <= i < |Held(t)| ==> Held(t)[i] == Held(s)[i + 1];
    assert Held(s)[0] == s.queue[0];
    assert t.queue != [] ==> t.queue[|t.queue| - 1] == s.queue[|s.queue| - 1];
  }

  lemma {:induction false} ReadKeeps(s: System, room: nat, all: seq<byte>)
    requires Inv(s, all)
    ensures Inv(ReadStep(s, room), all)
  {
    var t := ReadStep(s, room);
    if s.stash != [] || s.queue == [] {
      assert Held(t) == Held(s);
      assert t.served + t.stash == s.served + s.stash;
    } else {
      TakeAdds(s, room, all);
      TakeTaskOk(s, room);
    }
  }

  /** Every interleaving, chunking and sequence of buffer sizes keeps the invariant. */
  lemma {:induction false} RunKeeps(s: System, steps: seq<Step>, all: seq<byte>)
    requires Inv(s, all)
    ensures Inv(Run(s, steps), all)
    decreases |steps|
  {
    if steps != [] {
      match steps[0] {
        case Fill => if s.phase == Reading { FillKeeps(s, all); }
        case Send => SendKeeps(s, all);
        case ReadInto(room) => ReadKeeps(s, room, all);
      }
      RunKeeps(Next(s, steps[0]), steps[1..], all);
    }
  }

  // ----- What the consumer sees ---------------------------------------------

  /** Nothing is lost, invented or reordered: the pieces always add up to the stream. */
  predicate Conserved(s: System, all: seq<byte>) {
    all == s.served + s.stash + Queued(Held(s)) + s.line + s.src.Unread()
  }

  lemma {:induction false} QueuedIsLines(queue: seq<Item>)
    ensures Queued(queue) == Flatten(LinesIn(queue))
  {
    if queue != [] {
      QueuedIsLines(queue[1..]);
      FlattenConcat(LinesIn([queue[0]]), LinesIn(queue[1..]));
      LinesInOne(queue[0]);
      if queue[0].Line? {
        FlattenOne(queue[0].bytes);
      }
    }
  }

  lemma {:induction false} InvConserves(s: System, all: seq<byte>)
    requires Inv(s, all)
    ensures Conserved(s, all)
  {
    SplitSound(all);
    SplitSound(Remaining(s));
    FlattenConcat(s.taken + LinesIn(Held(s)), Split(Remaining(s)));
    FlattenConcat(s.taken, LinesIn(Held(s)));
    QueuedIsLines(Held(s));
  }

  /**
   * Over every run from a fresh reader, whatever the source's chunking, the
   * interleaving and the consumer's buffer sizes: bytes are conserved, what was
   * served is a prefix of the stream, and the lines handed over so far are the
   * first lines of its unique split.
   */
  lemma {:induction false} BytesAreConserved(src: Source, steps: seq<Step>)
    requires src.Valid()
    ensures Conserved(Run(Start(src), steps), src.Unread())
    ensures Run(Start(src), steps).served <= src.Unread()
    ensures Run(Start(src), steps).taken <= Split(src.Unread())
  {
    StartInv(src);
    RunKeeps(Start(src), steps, src.Unread());
    InvConserves(Run(Start(src), steps), src.Unread());
  }

  /** A split whose concatenation is unterminated can only end the whole stream. */
  lemma {:induction false} UnterminatedIsLast(head: seq<seq<byte>>, tail: seq<seq<byte>>)
    requires IsSplit(head + tail) && head != [] && tail != []
    ensures Terminated(Flatten(head))
  {
    var last := head[|head| - 1];
    assert (head + tail)[|head| - 1] == last;
    assert head == head[..|head| - 1] + [last];
    FlattenConcat(head[..|head| - 1], [last]);
    FlattenOne(last);
  }

  /**
   * `Pending` comes only between lines: everything served so far is empty, ends
   * in a newline, or is the whole stream. This is what makes a `read_line`
   * inside a `select!` cancel-safe.
   */
  lemma {:induction false} PendingOnlyBetweenLines(src: Source, steps: seq<Step>, room: nat)
    requires src.Valid()
    ensures
      var s := Run(Start(src), steps);
      ReadResult(s, room).Pending? ==> s.served == [] || Terminated(s.served) || s.served == src.Unread()
  {
    StartInv(src);
    RunKeeps(Start(src), steps, src.Unread());
    if ReadResult(Run(Start(src), steps), room).Pending? {
      DrainedIsBetweenLines(Run(Start(src), steps), src.Unread());
    }
  }

  lemma {:induction false} DrainedIsBetweenLines(s: System, all: seq<byte>)
    requires LinesAdd(s, all) && s.stash == []
    ensures s.served == [] || Terminated(s.served) || s.served == all
  {
    SplitSound(all);
    var tail := LinesIn(Held(s)) + Split(Remaining(s));
    assert Split(all) == s.taken + tail;
    assert Flatten(s.taken) == s.served;
    if s.taken != [] && tail != [] {
      UnterminatedIsLast(s.taken, tail);
    } else if tail == [] {
      assert Split(all) == s.taken;
    }
  }

  lemma {:induction false} ZeroReadIsEnd(s: System, room: nat, all: seq<byte>)
    requires Inv(s, all) && room > 0 && ReadResult(s, room) == Ready([]) && !s.reported
    ensures s.served == all
  {
    InvConserves(s, all);
    PollIsExact(s.stash, s.queue, s.phase == Finished, room);
    assert Held(s) == [];
  }

  lemma {:induction false} ErrorIsUpcoming(s: System, room: nat, all: seq<byte>)
    requires Inv(s, all) && ReadResult(s, room).Error?
    ensures s.served <= all && FirstLine(all[|s.served|..], s.src.fails) == Failed(ReadResult(s, room).why)
  {
    InvConserves(s, all);
    assert Held(s)[0] == s.queue[0];
    assert Held(s)[1..] == [];
    assert Queued(Held(s)) == [];
    assert all == s.served + Remaining(s);
  }

  /**
   * A read of 0 bytes into a non-empty buffer means end of stream, unless an
   * error has been reported; an error is reported only when the next line
   * cannot be produced, with every earlier line already served. That it is
   * then reported is `DrainedExactly`.
   */
  lemma {:induction false} EndAndErrorsAreExact(src: Source, steps: seq<Step>, room: nat)
    requires src.Valid()
    ensures
      var s, all := Run(Start(src), steps), src.Unread();
      && (room > 0 && ReadResult(s, room) == Ready([]) && !s.reported ==> s.served == all)
      && (ReadResult(s, room).Error? ==>
            s.served <= all && FirstLine(all[|s.served|..], src.fails) == Failed(ReadResult(s, room).why))
  {
    var s, all := Run(Start(src), steps), src.Unread();
    StartInv(src);
    RunKeeps(Start(src), steps, all);
    FailsFixed(Start(src), steps);
    if room > 0 && ReadResult(s, room) == Ready([]) && !s.reported {
      ZeroReadIsEnd(s, room, all);
    } else if ReadResult(s, room).Error? {
      ErrorIsUpcoming(s, room, all);
    }
  }

  lemma {:induction false} FailsFixed(s: System, steps: seq<Step>)
    ensures Run(s, steps).src.fails == s.src.fails
    decreases |steps|
  {
    if steps != [] {
      FailsFixed(Next(s, steps[0]), steps[1..]);
    }
  }

  /** The task is held back: however slow the consumer, the queue stays within its capacity. */
  lemma {:induction false} QueueIsBounded(s: System, steps: seq<Step>)
    requires |s.queue| <= QUEUE_CAPACITY
    ensures |Run(s, steps).queue| <= QUEUE_CAPACITY
    decreases |steps|
  {
    if steps != [] {
      QueueIsBounded(Next(s, steps[0]), steps[1..]);
    }
  }

  // ----- Everything is served, or the error is reported ---------------------

  /** The stream cannot be read to its end: its source fails, or one of its lines is too long. */
  ghost predicate Unreadable(all: seq<byte>, fails: bool) {
    fails || exists line :: line in Split(all) && |line| > MAX_LINE_SIZE
  }

  predicate BrokenLast(queue: seq<Item>) {
    queue != [] && queue[|queue| - 1].Broken?
  }

  /** Lines handed over fit the limit, and the task stops without an error only at a good end. */
  ghost predicate EndOk(s: System) {
    && (forall line :: line in s.taken ==> |line| <= MAX_LINE_SIZE)
    && (forall item :: item in Held(s) && item.Line? ==> |item.bytes| <= MAX_LINE_SIZE)
    && (s.phase.Finished? && !s.reported && !BrokenLast(s.queue) ==> !s.src.fails)
    && (s.reported ==> Upcoming(s).Failed?)
  }

  lemma {:induction false} FillFits(s: System)
    requires s.phase == Reading && |s.line| <= MAX_LINE_SIZE
    ensures
      var t := FillStep(s);
      && t == s.(src := t.src, line := t.line, phase := t.phase)
      && (t.phase.Sending? && t.phase.item.Line? ==> |t.phase.item.bytes| <= MAX_LINE_SIZE)
      && (t.phase.Finished? ==> !t.src.fails)
  {
  }

  lemma {:induction false} FillEnds(s: System, t: System)
    requires EndOk(s) && s.phase == Reading && !s.reported
    requires t == s.(src := t.src, line := t.line, phase := t.phase)
    requires t.phase.Sending? && t.phase.item.Line? ==> |t.phase.item.bytes| <= MAX_LINE_SIZE
    requires t.phase.Finished? ==> !t.src.fails
    ensures EndOk(t)
  {
    assert Held(s) == s.queue;
    assert Held(t) == s.queue + if t.phase.Sending? then [t.phase.item] else [];
  }

  lemma {:induction false} SendEnds(s: System)
    requires EndOk(s)
    ensures EndOk(SendStep(s))
  {
    var t := SendStep(s);
    if t != s {
      assert Held(t) == Held(s);
    }
  }

  lemma {:induction false} ReadLeavesRest(s: System, room: nat)
    ensures
      var t := ReadStep(s, room);
      && t.src == s.src && t.line == s.line && t.phase == s.phase && Upcoming(t) == Upcoming(s)
      && (s.stash != [] || s.queue == [] ==> Held(t) == Held(s) && t.taken == s.taken && t.reported == s.reported && t.queue == s.queue)
  {
  }

  lemma {:induction false} ReadEnds(s: System, room: nat, all: seq<byte>)
    requires Inv(s, all) && EndOk(s)
    ensures EndOk(ReadStep(s, room))
  {
    ReadLeavesRest(s, room);
    if s.stash == [] && s.queue != [] {
      TakeEnds(s, room);
    }
  }

  lemma {:induction false} TakeEnds(s: System, room: nat)
    requires TaskOk(s) && EndOk(s) && s.stash == [] && s.queue != []
    ensures EndOk(ReadStep(s, room))
  {
    var t := ReadStep(s, room);
    ReadLeavesRest(s, room);
    TakeFits(s, room);
    TakeReports(s, room);
  }

  lemma {:induction false} TakeFits(s: System, room: nat)
    requires EndOk(s) && s.stash == [] && s.queue != []
    ensures
      var t := ReadStep(s, room);
      && (forall line :: line in t.taken ==> |line| <= MAX_LINE_SIZE)
      && (forall item :: item in Held(t) && item.Line? ==> |item.bytes| <= MAX_LINE_SIZE)
  {
    HeldAfterTake(s, room);
    assert Held(s)[0] == s.queue[0];
    assert s.queue[0] in Held(s);
  }

  lemma {:induction false} TakeReports(s: System, room: nat)
    requires TaskOk(s) && EndOk(s) && s.stash == [] && s.queue != []
    ensures
      var t := ReadStep(s, room);
      && (t.phase.Finished? && !t.reported && !BrokenLast(t.queue) ==> !t.src.fails)
      && (t.reported ==> Upcoming(s).Failed?)
  {
    var t := ReadStep(s, room);
    assert Held(s)[0] == s.queue[0];
    assert t.queue == s.queue[1..];
    assert t.queue != [] ==> t.queue[|t.queue| - 1] == s.queue[|s.queue| - 1];
  }

  lemma {:induction false} StepEnds(s: System, step: Step, all: seq<byte>)
    requires Inv(s, all) && EndOk(s)
    ensures Inv(Next(s, step), all) && EndOk(Next(s, step))
  {
    match step {
      case Fill =>
        if s.phase == Reading {
          FillKeeps(s, all);
          FillFits(s);
          FillEnds(s, FillStep(s));
        }
      case Send =>
        SendKeeps(s, all);
        SendEnds(s);
      case ReadInto(room) =>
        ReadKeeps(s, room, all);
        ReadEnds(s, room, all);
    }
  }

  lemma {:induction false} RunEnds(s: System, steps: seq<Step>, all: seq<byte>)
    requires Inv(s, all) && EndOk(s)
    ensures Inv(Run(s, steps), all) && EndOk(Run(s, steps))
    decreases |steps|
  {
    if steps != [] {
      StepEnds(s, steps[0], all);
      RunEnds(Next(s, steps[0]), steps[1..], all);
    }
  }

  /** Nothing is left to do: the task has finished and everything it sent has been read. */
  predicate Drained(s: System) {
    s.phase.Finished? && s.queue == [] && s.stash == []
  }

  lemma {:induction false} DrainedLeaves(s: System, all: seq<byte>)
    requires Inv(s, all) && Drained(s)
    ensures all == s.served + Remaining(s) && Split(all) == s.taken + Split(Remaining(s))
  {
    InvConserves(s, all);
    assert Held(s) == [];
    Gather(s.served, s.line, s.src.Unread());
    assert s.taken + [] == s.taken;
  }

  lemma {:induction false} Gather(served: seq<byte>, line: seq<byte>, unread: seq<byte>)
    ensures served + [] + [] + line + unread == served + (line + unread)
  {
  }

  lemma {:induction false} LongRest(taken: seq<seq<byte>>, rest: seq<byte>, all: seq<byte>)
    requires Split(all) == taken + Split(rest) && FirstLine(rest, false).Failed?
    ensures Unreadable(all, false)
  {
    var line := rest[..LineLength(rest)];
    assert Split(rest)[0] == line;
    assert Split(all)[|taken|] == line;
    assert line in Split(all);
  }

  lemma {:induction false} DrainedIsEnd(s: System, all: seq<byte>)
    requires Inv(s, all) && EndOk(s) && Drained(s)
    ensures s.reported <==> Unreadable(all, s.src.fails)
    ensures s.served <= all && (if s.reported then FirstLine(all[|s.served|..], s.src.fails).Failed? else s.served == all)
  {
    DrainedLeaves(s, all);
    assert all[|s.served|..] == Remaining(s);
    if s.reported && !s.src.fails {
      LongRest(s.taken, Remaining(s), all);
    } else if !s.reported {
      assert Split(all) == s.taken;
    }
  }

  /** Steps still needed, at most. */
  function Work(s: System): nat {
    5 * |s.src.Unread()| + (if s.line != [] then 4 else 0)
    + (match s.phase case Finished => 0 case Reading => 4 case Sending(item) => if item.Line? then 7 else 3)
    + 2 * |s.queue| + (if s.stash != [] then 1 else 0)
  }

  /** The next useful step: read what is stashed, else what is queued, else let the task go on. */
  function Useful(s: System): Step {
    if s.stash != [] then ReadInto(|s.stash|)
    else if s.queue != [] then ReadInto(if s.queue[0].Line? then |s.queue[0].bytes| else 0)
    else if s.phase.Sending? then Send
    else Fill
  }

  lemma {:induction false} FillWorks(s: System)
    requires s.src.Valid() && TaskOk(s) && s.phase == Reading
    ensures Work(FillStep(s)) < Work(s)
  {
    if s.src.Available() != [] {
      FillExtends(Remaining(s), s.line, s.src);
    }
  }

  lemma {:induction false} UsefulWorks(s: System)
    requires s.src.Valid() && TaskOk(s) && !Drained(s)
    ensures Work(Next(s, Useful(s))) < Work(s)
  {
    if s.stash == [] && s.queue == [] && s.phase == Reading {
      FillWorks(s);
    }
  }

  function DrainSteps(s: System, n: nat): seq<Step>
    decreases n
  {
    if n == 0 || Drained(s) then [] else [Useful(s)] + DrainSteps(After(s), n - 1)
  }

  lemma {:induction false} RunCons(s: System, step: Step, rest: seq<Step>)
    ensures Run(s, [step] + rest) == Run(Next(s, step), rest)
  {
    assert ([step] + rest)[1..] == rest;
  }

  ghost predicate Sound(s: System, all: seq<byte>) {
    Inv(s, all) && EndOk(s)
  }

  lemma {:induction false} UsefulStep(s: System, all: seq<byte>)
    requires Sound(s, all) && !Drained(s)
    ensures Sound(After(s), all) && Work(After(s)) < Work(s)
  {
    UsefulWorks(s);
    StepEnds(s, Useful(s), all);
  }

  function After(s: System): System {
    Next(s, Useful(s))
  }

  function DrainedFrom(s: System, n: nat): System
    decreases n
  {
    if n == 0 || Drained(s) then s else DrainedFrom(After(s), n - 1)
  }

  lemma {:induction false} DrainStepsRun(s: System, n: nat)
    ensures |DrainSteps(s, n)| <= n && Run(s, DrainSteps(s, n)) == DrainedFrom(s, n)
    decreases n
  {
    if n > 0 && !Drained(s) {
      DrainStepsRun(After(s), n - 1);
      RunCons(s, Useful(s), DrainSteps(After(s), n - 1));
    }
  }

  lemma {:induction false} DrainReaches(s: System, n: nat, all: seq<byte>)
    requires Sound(s, all) && Work(s) <= n
    ensures Drained(DrainedFrom(s, n))
    decreases n
  {
    if !Drained(s) {
      UsefulStep(s, all);
      DrainReaches(After(s), n - 1, all);
    }
  }

  /**
   * From every reachable state a bounded number of fills, sends and reads, found by always taking a
   * useful one, serves the whole stream, or reports an error with every line before it served; and
   * it is the error exactly when the source fails or some line is too long.
   */
  lemma {:induction false} DrainedExactly(src: Source, steps: seq<Step>)
    requires src.Valid()
    ensures
      var s, all := Run(Start(src), steps), src.Unread();
      var more := DrainSteps(s, Work(s));
      var t := Run(s, more);
      && |more| <= Work(s) && Drained(t)
      && (t.reported <==> Unreadable(all, src.fails))
      && t.served <= all
      && (if t.reported then FirstLine(all[|t.served|..], src.fails).Failed? else t.served == all)
  {
    var s, all := Run(Start(src), steps), src.Unread();
    StartInv(src);
    RunEnds(Start(src), steps, all);
    DrainReaches(s, Work(s), all);
    DrainStepsRun(s, Work(s));
    RunEnds(s, DrainSteps(s, Work(s)), all);
    DrainedIsEnd(Run(s, DrainSteps(s, Work(s))), all);
    FailsFixed(Start(src), steps);
    FailsFixed(s, DrainSteps(s, Work(s)));
  }
}
