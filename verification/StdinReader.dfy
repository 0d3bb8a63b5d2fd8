/**
 * The chunked sibling of the line reader: a thread reads raw chunks with
 * blocking I/O and a consumer drains them. Both consumers refine one `Poll`.
 */
module StdinReader {
  import opened Streams
  import opened LineReader

  const CHUNK_BYTES: nat := 8 * 1024
  const CHUNK_QUEUE_DEPTH: nat := 64

  class ThreadReader {
    var chunks: seq<Item>
    var unread: seq<byte>
    var closed: bool

    constructor ()
      ensures chunks == [] && unread == [] && !closed
    {
      chunks, unread, closed := [], [], false;
    }

    /** Drains from the front of `unread`, refilling it from the channel when empty. */
    method PollRead(room: nat) returns (r: PollResult)
      modifies this
      ensures closed == old(closed)
      ensures PollStep(r, unread, chunks) == Poll(old(unread), old(chunks), closed, room)
    {
      if unread == [] {
        if chunks == [] {
          return if closed then Ready([]) else Pending;
        }
        var item := chunks[0];
        chunks := chunks[1..];
        match item {
          case Broken(why) => return Error(why);
          case Line(chunk) => unread := chunk;
        }
      }
      var count := if room <= |unread| then room else |unread|;
      r := Ready(unread[..count]);
      unread := unread[count..];
    }
  }

  /** What one blocking `read` does; an interrupted one is retried. */
  datatype ReadEvent = Interrupted | Got(n: nat) | Eof | Fault

  datatype ThreadStep = Block(event: ReadEvent) | Forward | Take(room: nat)

  /** `src.buffered` is the stream still to be read; the thread holds no partial line. */
  function ThreadStart(stream: seq<byte>): System {
    Start(Source(stream, [], false))
  }

  function BlockStep(s: System, event: ReadEvent): System
  {
    if s.phase != Reading then s
    else match event
      case Interrupted => s
      case Eof => if s.src.buffered == [] then s.(phase := Finished) else s
      case Fault => s.(phase := Sending(Broken(SourceError)))
      case Got(n) =>
        if 0 < n <= |s.src.buffered| && n <= CHUNK_BYTES then
          s.(src := s.src.Consume(n), phase := Sending(Line(s.src.buffered[..n])))
        else s
  }

  function ForwardStep(s: System): System
  {
    if s.phase.Sending? && |s.queue| < CHUNK_QUEUE_DEPTH then
      s.(queue := s.queue + [s.phase.item], phase := if s.phase.item.Line? then Reading else Finished)
    else s
  }

  function ThreadNext(s: System, step: ThreadStep): System {
    match step
    case Block(event) => BlockStep(s, event)
    case Forward => ForwardStep(s)
    case Take(room) => ReadStep(s, room)
  }

  function ThreadRun(s: System, steps: seq<ThreadStep>): System
    decreases |steps|
  {
    if steps == [] then s else ThreadRun(ThreadNext(s, steps[0]), steps[1..])
  }

  ghost predicate ThreadInv(s: System, all: seq<byte>)
  {
    && Conserved(s, all)
    && s.src.chunks == [] && s.line == []
    && (forall i :: 0 <= i < |s.queue| ==> s.queue[i] != Line([]))
    && (s.phase.Sending? ==> s.phase.item != Line([]))
    && (s.phase.Finished? ==> s.src.buffered == [] || s.reported || (s.queue != [] && s.queue[|s.queue| - 1].Broken?))
  }

  lemma {:induction false} QueuedConcat(a: seq<Item>, b: seq<Item>)
    ensures Queued(a + b) == Queued(a) + Queued(b)
  {
    if a == [] {
      assert a + b == b;
    } else {
      assert (a + b)[1..] == a[1..] + b;
      QueuedConcat(a[1..], b);
    }
  }

  lemma {:induction false} QueuedOne(item: Item)
    ensures Queued([item]) == if item.Line? then item.bytes else []
  {
    assert [item][1..] == [];
  }

  lemma {:induction false} BlockConserves(s: System, t: System, item: Item, all: seq<byte>)
    requires Conserved(s, all) && s.phase == Reading && s.line == [] && s.src.chunks == [] && t.src.chunks == []
    requires t == s.(src := t.src, phase := Sending(item))
    requires s.src.buffered == (if item.Line? then item.bytes else []) + t.src.buffered
    ensures Conserved(t, all)
  {
    assert Held(s) == s.queue && Held(t) == s.queue + [item];
    assert s.src.Unread() == s.src.buffered && t.src.Unread() == t.src.buffered;
    QueuedConcat(s.queue, [item]);
    QueuedOne(item);
    HandOver(s.served + s.stash, Queued(s.queue), s.line, Queued([item]), t.src.buffered);
  }

  lemma {:induction false} HandOver(served: seq<byte>, queued: seq<byte>, line: seq<byte>, taken: seq<byte>, left: seq<byte>)
    requires line == []
    ensures served + queued + line + (taken + left) == served + (queued + taken) + line + left
  {
  }

  lemma {:induction false} BlockKeeps(s: System, event: ReadEvent, all: seq<byte>)
    requires ThreadInv(s, all)
    ensures ThreadInv(BlockStep(s, event), all)
  {
    var t := BlockStep(s, event);
    if s.phase == Reading && t.phase.Sending? {
      BlockConserves(s, t, t.phase.item, all);
    } else {
      assert Held(t) == Held(s);
    }
  }

  lemma {:induction false} TakeConserves(s: System, room: nat, all: seq<byte>)
    requires Conserved(s, all)
    ensures Conserved(ReadStep(s, room), all)
  {
    var t := ReadStep(s, room);
    var sending := if s.phase.Sending? then [s.phase.item] else [];
    PollConserves(s.stash, s.queue, s.phase == Finished, room);
    QueuedConcat(s.queue, sending);
    QueuedConcat(t.queue, sending);
    var taken := if t.served == s.served then [] else t.served[|s.served|..];
    MoveBytes(s.served, taken, s.stash, Queued(s.queue), t.stash, Queued(t.queue), Queued(sending));
  }

  lemma {:induction false} MoveBytes(served: seq<byte>, now: seq<byte>, stash: seq<byte>, queue: seq<byte>,
      stash': seq<byte>, queue': seq<byte>, sending: seq<byte>)
    requires stash + queue == now + stash' + queue'
    ensures served + stash + (queue + sending) == served + now + stash' + (queue' + sending)
  {
    assert served + stash + (queue + sending) == served + (stash + queue) + sending;
  }

  lemma {:induction false} TakeKeeps(s: System, room: nat, all: seq<byte>)
    requires ThreadInv(s, all)
    ensures ThreadInv(ReadStep(s, room), all)
  {
    var t := ReadStep(s, room);
    TakeConserves(s, room, all);
    assert t.queue != [] ==> t.queue[|t.queue| - 1] == s.queue[|s.queue| - 1];
  }

  lemma {:induction false} ForwardKeeps(s: System, all: seq<byte>)
    requires ThreadInv(s, all)
    ensures ThreadInv(ForwardStep(s), all)
  {
    var t := ForwardStep(s);
    if t != s {
      assert Held(t) == Held(s);
    }
  }

  lemma {:induction false} ThreadRunKeeps(s: System, steps: seq<ThreadStep>, all: seq<byte>)
    requires ThreadInv(s, all)
    ensures ThreadInv(ThreadRun(s, steps), all)
    decreases |steps|
  {
    if steps != [] {
      match steps[0] {
        case Block(event) => BlockKeeps(s, event, all);
        case Take(room) => TakeKeeps(s, room, all);
        case Forward => ForwardKeeps(s, all);
      }
      ThreadRunKeeps(ThreadNext(s, steps[0]), steps[1..], all);
    }
  }

  /** An error only ever comes from a read that failed; an interrupted read is none. */
  ghost predicate FaultOnly(s: System, faulted: bool) {
    && (s.reported ==> faulted)
    && (forall item :: item in Held(s) && item.Broken? ==> faulted)
  }

  lemma {:induction false} StepFaults(s: System, step: ThreadStep, faulted: bool)
    requires FaultOnly(s, faulted)
    ensures FaultOnly(ThreadNext(s, step), faulted || step == Block(Fault))
  {
    var t := ThreadNext(s, step);
    match step {
      case Block(event) =>
        if t.phase.Sending? && s.phase == Reading {
          assert Held(t) == s.queue + [t.phase.item] && Held(s) == s.queue;
        } else {
          assert forall item :: item in Held(t) ==> item in Held(s);
        }
      case Forward =>
        assert forall item :: item in Held(t) ==> item in Held(s);
      case Take(room) =>
        assert forall item :: item in t.queue ==> item in s.queue;
        if s.stash == [] && s.queue != [] {
          assert s.queue[0] in Held(s);
        }
    }
  }

  lemma {:induction false} RunFaults(s: System, steps: seq<ThreadStep>, faulted: bool)
    requires FaultOnly(s, faulted)
    ensures FaultOnly(ThreadRun(s, steps), faulted || Block(Fault) in steps)
    decreases |steps|
  {
    if steps != [] {
      StepFaults(s, steps[0], faulted);
      RunFaults(ThreadNext(s, steps[0]), steps[1..], faulted || steps[0] == Block(Fault));
      assert steps == [steps[0]] + steps[1..];
    }
  }

  /** Over every run an error is reported only if some read failed: interruptions are retried, and chunks and the queue are bounded. */
  lemma {:induction false} ThreadErrorsAreReal(stream: seq<byte>, steps: seq<ThreadStep>)
    ensures
      var s := ThreadRun(ThreadStart(stream), steps);
      && (s.reported ==> Block(Fault) in steps)
      && |s.queue| <= CHUNK_QUEUE_DEPTH
      && forall item :: item in Held(s) && item.Line? ==> |item.bytes| <= CHUNK_BYTES
  {
    var s := ThreadStart(stream);
    assert Held(s) == [];
    RunFaults(s, steps, false);
    RunBounded(s, steps);
  }

  ghost predicate Bounded(s: System) {
    && |s.queue| <= CHUNK_QUEUE_DEPTH
    && forall item :: item in Held(s) && item.Line? ==> |item.bytes| <= CHUNK_BYTES
  }

  lemma {:induction false} StepBounded(s: System, step: ThreadStep)
    requires Bounded(s)
    ensures Bounded(ThreadNext(s, step))
  {
    var t := ThreadNext(s, step);
    match step {
      case Block(event) =>
        if t.phase.Sending? && s.phase == Reading {
          assert Held(t) == s.queue + [t.phase.item] && Held(s) == s.queue;
        } else {
          assert forall item :: item in Held(t) ==> item in Held(s);
        }
      case Forward =>
        assert forall item :: item in Held(t) ==> item in Held(s);
      case Take(room) =>
        assert forall item :: item in t.queue ==> item in s.queue;
    }
  }

  lemma {:induction false} RunBounded(s: System, steps: seq<ThreadStep>)
    requires Bounded(s)
    ensures Bounded(ThreadRun(s, steps))
    decreases |steps|
  {
    if steps != [] {
      StepBounded(s, steps[0]);
      RunBounded(ThreadNext(s, steps[0]), steps[1..]);
    }
  }

  /** A failed read is passed on as an error, a retried one changes nothing, and a good one hands on what it read. */
  lemma {:induction false} ReadIsPassedOn(s: System, n: nat)
    requires s.phase == Reading
    ensures BlockStep(s, Interrupted) == s
    ensures BlockStep(s, Fault) == s.(phase := Sending(Broken(SourceError)))
    ensures 0 < n <= |s.src.buffered| && n <= CHUNK_BYTES && s.src.chunks == [] ==>
              BlockStep(s, Got(n)).phase == Sending(Line(s.src.buffered[..n]))
              && BlockStep(s, Got(n)).src.Unread() == s.src.Unread()[n..]
  {
    if 0 < n <= |s.src.buffered| && s.src.chunks == [] {
      assert s.src.Unread() == s.src.buffered;
    }
  }

  /**
   * The same conservation law for the thread reader, over every interleaving,
   * read size and interruption; reading 0 means end of stream or a reported error.
   */
  lemma {:induction false} ThreadConserves(stream: seq<byte>, steps: seq<ThreadStep>, room: nat)
    ensures
      var s := ThreadRun(ThreadStart(stream), steps);
      && Conserved(s, stream)
      && (room > 0 && ReadResult(s, room) == Ready([]) && !s.reported ==> s.served == stream)
  {
    var s := ThreadRun(ThreadStart(stream), steps);
    assert Held(ThreadStart(stream)) == [];
    ThreadRunKeeps(ThreadStart(stream), steps, stream);
    PollIsExact(s.stash, s.queue, s.phase == Finished, room);
    if room > 0 && ReadResult(s, room) == Ready([]) && !s.reported {
      assert Held(s) == [];
    }
  }
}
