/**
 * The message gateway: sender clones push requests onto one channel, the
 * receiver loop spawns a handler task per message, and each request carries a
 * one-shot completion that its handler answers.
 */
module Gateway {

  /** How a completion receiver resolved: with the handler's response, or because its sender was dropped. */
  datatype Reply = Answer | Dropped

  /**
   * Messages are numbered in the order they are offered. `done` is the log of
   * finished handlers, in the order their effects happened.
   */
  datatype State = State(
    open: bool,
    offered: nat,
    accepted: seq<nat>,
    channel: seq<nat>,
    spawned: seq<nat>,
    done: seq<nat>,
    lost: seq<nat>,
    replies: map<nat, Reply>)

  const Idle := State(true, 0, [], [], [], [], [], map[])

  /**
   * `Offer`: any sender clone enqueues. `Spawn`: the loop receives and spawns.
   * `Finish(i)`: the i-th live task runs its handler and answers.
   * `Abort(i)`: that task is dropped or panics. `Close`: the receiver is dropped.
   */
  datatype Step = Offer | Spawn | Finish(i: nat) | Abort(i: nat) | Close

  function Without(s: seq<nat>, i: nat): seq<nat>
    requires i < |s|
  {
    s[..i] + s[i + 1..]
  }

  function DropAll(replies: map<nat, Reply>, ids: seq<nat>): map<nat, Reply> {
    map id | id in replies.Keys + (set x | x in ids) :: if id in ids then Dropped else replies[id]
  }

  function Next(s: State, step: Step): State {
    match step
    case Offer =>
      if s.open then
        s.(offered := s.offered + 1, accepted := s.accepted + [s.offered], channel := s.channel + [s.offered])
      else
        s.(offered := s.offered + 1, replies := s.replies[s.offered := Dropped])
    case Spawn =>
      if s.open && s.channel != [] then
        s.(channel := s.channel[1..], spawned := s.spawned + [s.channel[0]])
      else s
    case Finish(i) =>
      if i < |s.spawned| then
        s.(spawned := Without(s.spawned, i), done := s.done + [s.spawned[i]],
           replies := s.replies[s.spawned[i] := Answer])
      else s
    case Abort(i) =>
      if i < |s.spawned| then
        s.(spawned := Without(s.spawned, i), lost := s.lost + [s.spawned[i]],
           replies := s.replies[s.spawned[i] := Dropped])
      else s
    case Close =>
      s.(open := false, channel := [], lost := s.lost + s.channel, replies := DropAll(s.replies, s.channel))
  }

  function Run(s: State, steps: seq<Step>): State
    decreases |steps|
  {
    if steps == [] then s else Run(Next(s, steps[0]), steps[1..])
  }

  // ----- The gateway as the program runs it ---------------------------------

  class AcpGateway {
    var open: bool
    var offered: nat
    var accepted: seq<nat>
    var channel: seq<nat>
    var spawned: seq<nat>
    var done: seq<nat>
    var lost: seq<nat>
    var replies: map<nat, Reply>

    ghost function Now(): State reads this {
      State(open, offered, accepted, channel, spawned, done, lost, replies)
    }

    constructor ()
      ensures Now() == Idle
    {
      open, offered, accepted, channel, spawned, done, lost, replies := true, 0, [], [], [], [], [], map[];
    }

    /** Shared enqueue: the acceptance flag and the completion receiver (the message's number). */
    method Enqueue() returns (ok: bool, completion: nat)
      modifies this
      ensures Now() == Next(old(Now()), Offer)
      ensures completion == old(offered) && ok == old(open)
      ensures Inv(old(Now())) ==> Inv(Now()) && completion !in old(replies)
    {
      if Inv(Now()) {
        StepKeeps(Now(), Offer);
        ExactlyOnePlace(Now(), offered);
      }
      completion := offered;
      ok := open;
      offered := offered + 1;
      if ok {
        accepted, channel := accepted + [completion], channel + [completion];
      } else {
        replies := replies[completion := Dropped];
      }
    }

    method ForwardWithCompletion() returns (completion: nat)
      modifies this
      ensures Now() == Next(old(Now()), Offer) && completion == old(offered)
      ensures if old(open) then completion in channel else completion in replies && replies[completion].Dropped?
    {
      var _, c := Enqueue();
      completion := c;
    }

    method ForwardFireAndForget() returns (ok: bool)
      modifies this
      ensures Now() == Next(old(Now()), Offer)
      ensures ok <==> old(offered) in accepted[|old(accepted)|..]
    {
      var accept, _ := Enqueue();
      ok := accept;
    }

    /** The receiver loop on the messages queued now: every one is spawned, in order. */
    method DispatchPending()
      requires open
      modifies this
      ensures channel == [] && spawned == old(spawned) + old(channel)
      ensures Now() == Run(old(Now()), seq(|old(channel)|, _ => Spawn))
    {
      ghost var k := 0;
      while channel != []
        invariant open && k <= |old(channel)|
        invariant channel == old(channel)[k..] && spawned == old(spawned) + old(channel)[..k]
        invariant Now() == old(Now()).(channel := channel, spawned := spawned)
        invariant Run(old(Now()), seq(|old(channel)|, _ => Spawn))
               == Run(Now(), seq(|channel|, _ => Spawn))
        decreases |channel|
      {
        var message := channel[0];
        assert seq(|channel|, _ => Spawn)[1..] == seq(|channel| - 1, _ => Spawn);
        assert Next(Now(), Spawn) == Now().(channel := channel[1..], spawned := spawned + [message]);
        channel := channel[1..];
        spawned := spawned + [message];
        k := k + 1;
      }
    }

    /** A handler task: the effect, then its response on a completion channel nothing has resolved before. */
    method Handle(i: nat)
      requires i < |spawned|
      modifies this
      ensures Now() == Next(old(Now()), Finish(i))
      ensures Inv(old(Now())) ==> Inv(Now()) && old(spawned[i]) !in old(replies) && old(spawned[i]) !in old(done)
    {
      if Inv(Now()) {
        StepKeeps(Now(), Finish(i));
        ExactlyOnePlace(Now(), spawned[i]);
      }
      var message := spawned[i];
      spawned := spawned[..i] + spawned[i + 1..];
      done := done + [message];
      replies := replies[message := Answer];
    }
  }

  // ----- Every accepted message is in exactly one place ---------------------

  predicate Increasing(ids: seq<nat>, bound: nat) {
    && (forall i, j :: 0 <= i < j < |ids| ==> ids[i] < ids[j])
    && (forall i :: 0 <= i < |ids| ==> ids[i] < bound)
  }

  /** In how many places message `id` is. */
  function Places(s: State, id: nat): nat {
    multiset(s.channel)[id] + multiset(s.spawned)[id] + multiset(s.done)[id] + multiset(s.lost)[id]
  }

  ghost predicate Placed(s: State) {
    && (forall id: nat :: Places(s, id) == multiset(s.accepted)[id])
    && Increasing(s.accepted, s.offered)
    && (!s.open ==> s.channel == [])
  }

  predicate Refused(s: State, id: nat) {
    id < s.offered && id !in s.accepted
  }

  ghost predicate Replied(s: State) {
    && (forall id: nat :: id in s.done <==> id in s.replies && s.replies[id] == Answer)
    && (forall id: nat :: id in s.lost || Refused(s, id) <==> id in s.replies && s.replies[id] == Dropped)
  }

  ghost predicate Inv(s: State) {
    Placed(s) && Replied(s)
  }

  lemma {:induction false} IncreasingDistinct(ids: seq<nat>, bound: nat, id: nat)
    requires Increasing(ids, bound)
    ensures multiset(ids)[id] <= 1
  {
    if ids != [] {
      var last := |ids| - 1;
      assert ids == ids[..last] + [ids[last]];
      IncreasingDistinct(ids[..last], bound, id);
      if id == ids[last] {
        assert id !in ids[..last];
      }
    }
  }

  /** Accepted means in exactly one of: channel, live task, finished, lost. */
  lemma {:induction false} ExactlyOnePlace(s: State, id: nat)
    requires Placed(s)
    ensures Places(s, id) == if id in s.accepted then 1 else 0
    ensures id !in s.accepted <==> id !in s.channel && id !in s.spawned && id !in s.done && id !in s.lost
  {
    IncreasingDistinct(s.accepted, s.offered, id);
    assert Places(s, id) == multiset(s.accepted)[id];
    assert id in s.accepted <==> id in multiset(s.accepted);
    assert id in s.channel <==> id in multiset(s.channel);
    assert id in s.spawned <==> id in multiset(s.spawned);
    assert id in s.done <==> id in multiset(s.done);
    assert id in s.lost <==> id in multiset(s.lost);
  }

  lemma {:induction false} WithoutPlace(s: seq<nat>, i: nat)
    requires i < |s|
    ensures multiset(s) == multiset(Without(s, i)) + multiset{s[i]}
  {
    assert s == s[..i] + [s[i]] + s[i + 1..];
  }

  /** Only an accepted offer adds a message; every other step just moves it. */
  lemma {:induction false} StepMovesOne(s: State, step: Step, id: nat)
    ensures Places(Next(s, step), id)
         == Places(s, id) + if step.Offer? && s.open && id == s.offered then 1 else 0
  {
    match step {
      case Offer =>
      case Spawn =>
        if s.open && s.channel != [] {
          assert s.channel == [s.channel[0]] + s.channel[1..];
        }
      case Finish(i) => if i < |s.spawned| { WithoutPlace(s.spawned, i); }
      case Abort(i) => if i < |s.spawned| { WithoutPlace(s.spawned, i); }
      case Close =>
    }
  }

  lemma {:induction false} PlacesKept(s: State, step: Step)
    requires Placed(s)
    ensures Placed(Next(s, step))
  {
    var t := Next(s, step);
    forall id: nat ensures Places(t, id) == multiset(t.accepted)[id] {
      assert Places(s, id) == multiset(s.accepted)[id];
      StepMovesOne(s, step, id);
    }
  }

  lemma {:induction false} RepliesKept(s: State, step: Step)
    requires Inv(s)
    ensures Replied(Next(s, step))
  {
    match step {
      case Offer => ExactlyOnePlace(s, s.offered);
      case Spawn =>
      case Finish(i) => if i < |s.spawned| { ExactlyOnePlace(s, s.spawned[i]); }
      case Abort(i) => if i < |s.spawned| { ExactlyOnePlace(s, s.spawned[i]); }
      case Close =>
        forall id: nat | id in s.channel
          ensures id !in s.done && id !in s.lost && id in s.accepted
        {
          ExactlyOnePlace(s, id);
        }
    }
  }

  lemma {:induction false} StepKeeps(s: State, step: Step)
    requires Inv(s)
    ensures Inv(Next(s, step))
  {
    PlacesKept(s, step);
    RepliesKept(s, step);
  }

  lemma {:induction false} RunKeeps(s: State, steps: seq<Step>)
    requires Inv(s)
    ensures Inv(Run(s, steps))
    decreases |steps|
  {
    if steps != [] {
      StepKeeps(s, steps[0]);
      RunKeeps(Next(s, steps[0]), steps[1..]);
    }
  }

  // ----- Completions as a barrier -------------------------------------------

  /** The loop keeps running and no task is dropped. */
  predicate Undisturbed(steps: seq<Step>) {
    forall i :: 0 <= i < |steps| ==> !steps[i].Close? && !steps[i].Abort?
  }

  /**
   * Under every scheduler, a resolved completion tells exactly what became of
   * its message: answered iff its handler finished, dropped iff the message was
   * refused, discarded or its task died.
   */
  lemma {:induction false} CompletionsAreExact(steps: seq<Step>, id: nat)
    ensures
      var s := Run(Idle, steps);
      && (id in s.replies && s.replies[id] == Answer <==> id in s.done)
      && (id in s.replies && s.replies[id] == Dropped <==> id in s.lost || Refused(s, id))
      && (id in s.accepted && id !in s.replies <==> id in s.channel || id in s.spawned)
  {
    RunKeeps(Idle, steps);
    ExactlyOnePlace(Run(Idle, steps), id);
  }

  lemma {:induction false} UndisturbedLosesNothing(s: State, steps: seq<Step>)
    requires Inv(s) && s.open && s.lost == [] && |s.accepted| == s.offered && Undisturbed(steps)
    ensures
      var t := Run(s, steps);
      Inv(t) && t.open && t.lost == [] && |t.accepted| == t.offered
    decreases |steps|
  {
    if steps != [] {
      StepKeeps(s, steps[0]);
      UndisturbedLosesNothing(Next(s, steps[0]), steps[1..]);
    }
  }

  lemma {:induction false} IncreasingFull(ids: seq<nat>, bound: nat)
    requires Increasing(ids, bound) && |ids| == bound
    ensures forall i :: 0 <= i < bound ==> ids[i] == i
  {
    if bound > 0 {
      var last := bound - 1;
      assert Increasing(ids[..last], last) by {
        assert forall i :: 0 <= i < last ==> ids[i] < ids[last];
      }
      IncreasingFull(ids[..last], last);
      assert last > 0 ==> ids[last - 1] == ids[..last][last - 1] == last - 1;
    }
  }

  /**
   * While the loop runs, nothing offered is lost, and once every completion of
   * a batch has resolved, every handler of the batch has finished.
   */
  lemma {:induction false} ResolvedBatchHasFinished(steps: seq<Step>, batch: set<nat>)
    requires Undisturbed(steps)
    requires forall id: nat :: id in batch ==> id in Run(Idle, steps).replies
    ensures Run(Idle, steps).lost == []
    ensures forall id: nat :: id < Run(Idle, steps).offered ==> id in Run(Idle, steps).accepted
    ensures forall id: nat :: id in batch ==> id in Run(Idle, steps).done
  {
    var s := Run(Idle, steps);
    UndisturbedLosesNothing(Idle, steps);
    IncreasingFull(s.accepted, s.offered);
    forall id: nat | id < s.offered ensures id in s.accepted { assert s.accepted[id] == id; }
    forall id: nat | id in batch ensures id in s.done {
      CompletionsAreExact(steps, id);
      assert id in s.replies;
    }
  }

  /** Without that proviso the barrier is not one: a dropped loop resolves completions of handlers that never ran. */
  lemma {:induction false} DroppedLoopResolvesUnrun()
    ensures
      var s := Run(Idle, [Offer, Close]);
      0 in s.accepted && 0 in s.replies && 0 !in s.done
  {
    var one := Next(Idle, Offer);
    assert [Offer, Close][1..] == [Close];
    assert Run(one, [Close]) == Next(one, Close);
  }

  // ----- Enqueue order ------------------------------------------------------

  /** Tasks run to completion, oldest first: the spawner is a queue and handlers do not suspend. */
  predicate InOrder(steps: seq<Step>) {
    forall i :: 0 <= i < |steps| ==> !steps[i].Abort? && (steps[i].Finish? ==> steps[i].i == 0)
  }

  predicate Lined(s: State) {
    && s.done + s.spawned + (if s.open then s.channel else s.lost) == s.accepted
    && (s.open ==> s.lost == []) && (!s.open ==> s.channel == [])
  }

  lemma {:induction false} InOrderLined(s: State, steps: seq<Step>)
    requires Lined(s) && InOrder(steps)
    ensures Lined(Run(s, steps))
    decreases |steps|
  {
    if steps != [] {
      var t := Next(s, steps[0]);
      StepLined(s, steps[0]);
      assert InOrder(steps[1..]);
      InOrderLined(t, steps[1..]);
    }
  }

  lemma {:induction false} StepLined(s: State, step: Step)
    requires Lined(s) && !step.Abort? && (step.Finish? ==> step.i == 0)
    ensures Lined(Next(s, step))
  {
    var t := Next(s, step);
    if step.Spawn? && s.open && s.channel != [] {
      assert t.spawned + t.channel == s.spawned + s.channel;
    } else if step.Finish? && s.spawned != [] {
      assert t.done + t.spawned == s.done + s.spawned;
    }
  }

  /**
   * Effects happen in enqueue order across all sender clones: the log is a
   * prefix of the accepted messages, so whatever was sent after a batch comes
   * after the whole of it.
   */
  lemma {:induction false} EffectsInEnqueueOrder(steps: seq<Step>, earlier: nat, later: nat)
    requires InOrder(steps) && earlier < later
    ensures Run(Idle, steps).done <= Run(Idle, steps).accepted
    ensures
      var s := Run(Idle, steps);
      earlier in s.accepted && later in s.done ==>
        exists i, j :: 0 <= i < j < |s.done| && s.done[i] == earlier && s.done[j] == later
  {
    var s := Run(Idle, steps);
    InOrderLined(Idle, steps);
    RunKeeps(Idle, steps);
    if earlier in s.accepted && later in s.done {
      var i :| 0 <= i < |s.accepted| && s.accepted[i] == earlier;
      var j :| 0 <= j < |s.done| && s.done[j] == later;
      assert s.accepted[j] == later;
      assert s.done[i] == earlier;
    }
  }

  /** A task that overtakes another breaks the order, so the proviso is needed. */
  lemma {:induction false} OvertakingReorders()
    ensures Run(Idle, [Offer, Offer, Spawn, Spawn, Finish(1)]).done == [1]
  {
    var a := Next(Next(Idle, Offer), Offer);
    var b := Next(Next(a, Spawn), Spawn);
    assert b.spawned == [0, 1];
    var steps := [Offer, Offer, Spawn, Spawn, Finish(1)];
    assert steps[1..] == [Offer, Spawn, Spawn, Finish(1)];
    assert steps[1..][1..] == [Spawn, Spawn, Finish(1)];
    assert Run(a, [Spawn, Spawn, Finish(1)]) == Next(b, Finish(1)) by {
      assert [Spawn, Spawn, Finish(1)][1..] == [Spawn, Finish(1)];
      assert [Spawn, Finish(1)][1..] == [Finish(1)];
      assert [Finish(1)][1..] == [];
    }
  }

  /** Which live task to finish next, `n` times over: any scheduler's choices. */
  predicate Fits(picks: seq<nat>, n: nat) {
    |picks| == n && forall k :: 0 <= k < n ==> picks[k] < n - k
  }

  function Finishes(picks: seq<nat>): seq<Step> {
    seq(|picks|, k requires 0 <= k < |picks| => Finish(picks[k]))
  }

  /**
   * From every reachable state in which the loop still runs, one turn per queued message and one
   * run per task, under any scheduler, deliver everything accepted but what an abort had already lost.
   */
  lemma {:induction false} EverythingIsDelivered(steps: seq<Step>, picks: seq<nat>)
    requires Run(Idle, steps).open
    requires Fits(picks, |Run(Idle, steps).spawned| + |Run(Idle, steps).channel|)
    ensures
      var s := Run(Idle, steps);
      var t := Run(Run(s, seq(|s.channel|, _ => Spawn)), Finishes(picks));
      && t.channel == [] && t.spawned == [] && t.accepted == s.accepted && t.lost == s.lost
      && multiset(t.done) + multiset(t.lost) == multiset(s.accepted)
      && ((forall i :: 0 <= i < |steps| ==> !steps[i].Abort?) ==> multiset(t.done) == multiset(s.accepted))
  {
    var s := Run(Idle, steps);
    var u := Run(s, seq(|s.channel|, _ => Spawn));
    RunKeeps(Idle, steps);
    RunKeeps(s, seq(|s.channel|, _ => Spawn));
    SpawnAll(s, |s.channel|);
    FinishAll(u, picks);
    AllDelivered(Run(u, Finishes(picks)));
    if forall i :: 0 <= i < |steps| ==> !steps[i].Abort? {
      OpenLosesNothing(Idle, steps);
    }
  }

  lemma {:induction false} AllDelivered(t: State)
    requires Placed(t) && t.channel == [] && t.spawned == []
    ensures multiset(t.done) + multiset(t.lost) == multiset(t.accepted)
  {
    forall id: nat
      ensures (multiset(t.done) + multiset(t.lost))[id] == multiset(t.accepted)[id]
    {
      assert Places(t, id) == multiset(t.accepted)[id];
    }
  }

  lemma {:induction false} OpenLosesNothing(s: State, steps: seq<Step>)
    requires (s.open ==> s.lost == []) && forall i :: 0 <= i < |steps| ==> !steps[i].Abort?
    ensures Run(s, steps).open ==> Run(s, steps).lost == []
    decreases |steps|
  {
    if steps != [] {
      OpenLosesNothing(Next(s, steps[0]), steps[1..]);
    }
  }

  lemma {:induction false} SpawnAll(s: State, n: nat)
    requires s.open && n == |s.channel|
    ensures Run(s, seq(n, _ => Spawn)) == s.(channel := [], spawned := s.spawned + s.channel)
    decreases n
  {
    var steps := seq(n, _ => Spawn);
    if n > 0 {
      assert steps[1..] == seq(n - 1, _ => Spawn);
      SpawnAll(Next(s, Spawn), n - 1);
      assert s.channel == [s.channel[0]] + s.channel[1..];
    } else {
      assert s.channel == [];
    }
  }

  lemma {:induction false} FinishAll(s: State, picks: seq<nat>)
    requires Inv(s) && Fits(picks, |s.spawned|)
    ensures
      var t := Run(s, Finishes(picks));
      Inv(t) && t.spawned == [] && t.channel == s.channel && t.accepted == s.accepted && t.lost == s.lost
    decreases |picks|
  {
    if picks != [] {
      var step, rest := Finish(picks[0]), picks[1..];
      assert Finishes(picks)[0] == step && Finishes(picks)[1..] == Finishes(rest);
      assert forall k :: 0 <= k < |rest| ==> rest[k] == picks[k + 1];
      StepKeeps(s, step);
      FinishAll(Next(s, step), rest);
    }
  }
}
