/**
 * The terminal wait protocol: a feeder, resizers and a waiter share a terminal
 * lock and a generation counter carried by a watch channel.
 */
module Wait {

  /** `Fed`: the grid was fed and unlocked, the bump is still to come. */
  datatype Feeder = Idle | Fed | Exited

  /**
   * A resizer holds the terminal lock throughout. `Reflowed`: the grid changed;
   * `Upgraded`: it also holds the sender, obtained from the weak handle.
   */
  datatype Resizer = Away | Locked | Reflowed | Upgraded | Bumped

  datatype Outcome = Matched | Ended | TimedOut

  /** `Looping` is the top of the loop; `Marked` has recorded the generation; `Parked` waits in `select!`. */
  datatype Waiter = Looping | Marked | Parked | Returned(outcome: Outcome)

  datatype Unseen<G> = Nothing | Grid(grid: G)

  /** `silent` records the grid last set by a resize after the sender was gone. */
  datatype Session<G> = Session(
    grid: G, gen: nat, feeder: Feeder, resizer: Resizer,
    waiter: Waiter, seen: nat, late: bool, silent: Unseen<G>)
  {
    /** The feeder owns the sender; a resizer between upgrade and drop keeps it alive. */
    predicate SenderAlive() {
      feeder != Exited || resizer.Upgraded? || resizer.Bumped?
    }

    predicate LockFree() {
      resizer.Away?
    }

    /** A grid change has happened whose bump has not. */
    predicate BumpPending() {
      feeder.Fed? || resizer.Reflowed? || resizer.Upgraded?
    }
  }

  datatype Step<G> =
    | Feed(grid: G) | FeedBump | FeederExit
    | ResizeLock | ResizeFails | ResizeGrid(grid: G) | ResizeUpgrade | ResizeBump | ResizeUnlock
    | Mark | Check | Wake | Deadline | Expire

  function Start<G>(grid: G): Session<G> {
    Session(grid, 0, Idle, Away, Looping, 0, false, Nothing)
  }

  /** One step; a step that is not enabled changes nothing. */
  function Next<G>(s: Session<G>, step: Step<G>, met: G -> bool): Session<G>
  {
    match step
    case Feed(grid) =>
      if s.feeder.Idle? && s.LockFree() then s.(grid := grid, feeder := Fed) else s
    case FeedBump =>
      if s.feeder.Fed? then s.(gen := s.gen + 1, feeder := Idle) else s
    case FeederExit =>
      if s.feeder.Idle? then s.(feeder := Exited) else s
    case ResizeLock =>
      if s.LockFree() then s.(resizer := Locked) else s
    case ResizeFails =>
      if s.resizer.Locked? then s.(resizer := Away) else s
    case ResizeGrid(grid) =>
      if s.resizer.Locked? then s.(grid := grid, resizer := Reflowed) else s
    case ResizeUpgrade =>
      if !s.resizer.Reflowed? then s
      else if s.feeder != Exited then s.(resizer := Upgraded)
      else s.(resizer := Away, silent := Grid(s.grid))
    case ResizeBump =>
      if s.resizer.Upgraded? then s.(gen := s.gen + 1, resizer := Bumped) else s
    case ResizeUnlock =>
      if s.resizer.Bumped? then s.(resizer := Away) else s
    case Mark =>
      if s.waiter.Looping? then s.(seen := s.gen, waiter := Marked) else s
    case Check =>
      if s.waiter.Marked? && s.LockFree() then
        s.(waiter := if met(s.grid) then Returned(Matched) else Parked)
      else s
    case Wake =>
      // `changed()`: a newer generation first; an error only once the newest has been seen.
      if !s.waiter.Parked? then s
      else if s.seen != s.gen then s.(waiter := Looping)
      else if !s.SenderAlive() then s.(waiter := Returned(Ended))
      else s
    case Deadline =>
      s.(late := true)
    case Expire =>
      if s.waiter.Parked? && s.late then s.(waiter := Returned(TimedOut)) else s
  }

  function Run<G>(s: Session<G>, steps: seq<Step<G>>, met: G -> bool): Session<G>
    decreases |steps|
  {
    if steps == [] then s else Run(Next(s, steps[0], met), steps[1..], met)
  }

  /**
   * The heart of the protocol: a parked waiter either checked a grid that still
   * stands, or owes its wake-up to a bump made, a bump to come, or a dead sender.
   */
  ghost predicate Inv<G>(s: Session<G>, met: G -> bool) {
    && s.seen <= s.gen
    && (s.waiter.Parked? && s.seen == s.gen && !s.BumpPending() && s.silent.Nothing? ==> !met(s.grid))
    && (s.waiter == Returned(Ended) ==> !s.SenderAlive())
    && (s.waiter == Returned(Ended) && s.silent.Nothing? && !s.resizer.Reflowed? ==> !met(s.grid))
    && (s.silent.Grid? ==> !s.SenderAlive() && (s.resizer.Reflowed? || s.grid == s.silent.grid))
    && (s.waiter == Returned(TimedOut) ==> s.late)
  }

  lemma {:induction false} RunKeeps<G>(s: Session<G>, steps: seq<Step<G>>, met: G -> bool)
    requires Inv(s, met)
    ensures Inv(Run(s, steps, met), met)
    decreases |steps|
  {
    if steps != [] {
      RunKeeps(Next(s, steps[0], met), steps[1..], met);
    }
  }

  /**
   * No wakeup is lost: in every reachable state, a parked waiter that has seen
   * the current generation, with the sender alive and no bump pending, waits on
   * a condition that is false on the current grid.
   */
  lemma {:induction false} NoLostWakeup<G>(grid: G, steps: seq<Step<G>>, met: G -> bool)
    ensures
      var s := Run(Start(grid), steps, met);
      s.waiter.Parked? && s.seen == s.gen && s.SenderAlive() && !s.BumpPending() ==> !met(s.grid)
  {
    RunKeeps(Start(grid), steps, met);
  }

  /**
   * Once the condition holds on a quiescent grid, three waiter steps match it,
   * wherever the waiter was, even if the feeder has exited meanwhile.
   */
  lemma {:induction false} QuiescentGridMatches<G>(grid: G, steps: seq<Step<G>>, met: G -> bool)
    ensures
      var s := Run(Start(grid), steps, met);
      !s.waiter.Returned? && !s.BumpPending() && s.LockFree() && s.silent.Nothing? && met(s.grid) ==>
        Run(s, [Wake, Mark, Check], met).waiter == Returned(Matched)
  {
    var s := Run(Start(grid), steps, met);
    RunKeeps(Start(grid), steps, met);
    var rest: seq<Step<G>> := [Wake, Mark, Check];
    var a := Next(s, Wake, met);
    var b := Next(a, Mark, met);
    assert rest[1..] == [Mark, Check] && rest[1..][1..] == [Check] && rest[1..][1..][1..] == [];
    assert Run(b, [Check], met) == Next(b, Check, met);
    assert Run(a, [Mark, Check], met) == Next(b, Check, met);
  }

  /** A match is a match: a wait is reported as matched only at a step at which the grid meets the condition. */
  lemma {:induction false} MatchedMeansMet<G>(grid: G, steps: seq<Step<G>>, step: Step<G>, met: G -> bool)
    ensures
      var s := Run(Start(grid), steps, met);
      Next(s, step, met).waiter == Returned(Matched) && s.waiter != Returned(Matched) ==> met(s.grid) && s.LockFree()
  {
    RunKeeps(Start(grid), steps, met);
  }

  /** Output that meets the condition is matched: from every reachable state with the feeder at work, feeding such a grid ends the wait in success. */
  lemma {:induction false} FedGridMatches<G>(start: G, steps: seq<Step<G>>, met: G -> bool, grid: G)
    ensures
      var s := Run(Start(start), steps, met);
      s.feeder.Idle? && s.LockFree() && !s.waiter.Returned? && met(grid) ==>
        Run(s, [Feed(grid), FeedBump, Wake, Mark, Check], met).waiter == Returned(Matched)
  {
    RunKeeps(Start(start), steps, met);
    var s := Run(Start(start), steps, met);
    Unroll(s, Feed(grid), [FeedBump, Wake, Mark, Check], met);
    s := Next(s, Feed(grid), met);
    Unroll(s, FeedBump, [Wake, Mark, Check], met);
    s := Next(s, FeedBump, met);
    Unroll(s, Wake, [Mark, Check], met);
    s := Next(s, Wake, met);
    Unroll(s, Mark, [Check], met);
    s := Next(s, Mark, met);
    Unroll(s, Check, [], met);
  }

  /** And a report is final: no later step takes it back. */
  lemma {:induction false} ReportIsFinal<G>(s: Session<G>, steps: seq<Step<G>>, met: G -> bool)
    requires s.waiter.Returned?
    ensures Run(s, steps, met).waiter == s.waiter
    decreases |steps|
  {
    if steps != [] {
      ReportIsFinal(Next(s, steps[0], met), steps[1..], met);
    }
  }

  /** Past the deadline a wait ends, matched or not, as soon as the terminal lock is free for one check. */
  lemma {:induction false} DeadlineEndsWait<G>(grid: G, steps: seq<Step<G>>, met: G -> bool)
    ensures
      var s := Run(Start(grid), steps, met);
      s.late && s.LockFree() ==> Run(s, [Mark, Check, Expire], met).waiter.Returned?
  {
    var s := Run(Start(grid), steps, met);
    Unroll(s, Mark, [Check, Expire], met);
    s := Next(s, Mark, met);
    Unroll(s, Check, [Expire], met);
    s := Next(s, Check, met);
    Unroll(s, Expire, [], met);
  }

  /**
   * With the sender gone a wait ends too, deadline or not: whatever was still unseen is seen in one
   * turn of the loop, and the next finds nothing newer to wait for.
   */
  lemma {:induction false} GoneEndsWait<G>(grid: G, steps: seq<Step<G>>, met: G -> bool)
    ensures
      var s := Run(Start(grid), steps, met);
      s.feeder.Exited? && s.LockFree() ==> Run(s, [Wake, Mark, Check, Wake, Mark, Check, Wake], met).waiter.Returned?
  {
    var s := Run(Start(grid), steps, met);
    Unroll(s, Wake, [Mark, Check, Wake, Mark, Check, Wake], met);
    s := Next(s, Wake, met);
    Unroll(s, Mark, [Check, Wake, Mark, Check, Wake], met);
    s := Next(s, Mark, met);
    Unroll(s, Check, [Wake, Mark, Check, Wake], met);
    s := Next(s, Check, met);
    Unroll(s, Wake, [Mark, Check, Wake], met);
    s := Next(s, Wake, met);
    Unroll(s, Mark, [Check, Wake], met);
    s := Next(s, Mark, met);
    Unroll(s, Check, [Wake], met);
    s := Next(s, Check, met);
    Unroll(s, Wake, [], met);
  }

  /**
   * Once no resize is half done, a wait reported as ended is wrong about the grid exactly when a
   * resize after the sender was gone set a grid that meets the condition.
   */
  lemma {:induction false} EndedIsWrongIff<G>(grid: G, steps: seq<Step<G>>, met: G -> bool)
    ensures
      var s := Run(Start(grid), steps, met);
      s.waiter == Returned(Ended) && !s.resizer.Reflowed? ==>
        (met(s.grid) <==> s.silent.Grid? && met(s.silent.grid))
  {
    RunKeeps(Start(grid), steps, met);
  }

  /**
   * No such resize is ever noticed: from every reachable state with the waiter parked and up to date
   * and the feeder gone, a resize to any grid goes by and the wait is reported as ended on that grid.
   */
  lemma {:induction false} LateResizeIsMissed<G>(start: G, steps: seq<Step<G>>, met: G -> bool, grid: G)
    ensures
      var s := Run(Start(start), steps, met);
      var t := Run(s, [ResizeLock, ResizeGrid(grid), ResizeUpgrade, Wake], met);
      s.waiter.Parked? && s.seen == s.gen && s.feeder.Exited? && s.LockFree() ==>
        t.waiter == Returned(Ended) && t.grid == grid && t.silent == Grid(grid) && t.LockFree()
  {
    RunKeeps(Start(start), steps, met);
    var s := Run(Start(start), steps, met);
    Unroll(s, ResizeLock, [ResizeGrid(grid), ResizeUpgrade, Wake], met);
    s := Next(s, ResizeLock, met);
    Unroll(s, ResizeGrid(grid), [ResizeUpgrade, Wake], met);
    s := Next(s, ResizeGrid(grid), met);
    Unroll(s, ResizeUpgrade, [Wake], met);
    s := Next(s, ResizeUpgrade, met);
    Unroll(s, Wake, [], met);
  }

  /** Such a state is reached, and the grid may meet the condition: a wait that should have matched ends. */
  lemma {:induction false} SilentResizeIsMissed()
    ensures
      var met := (g: bool) => g;
      var steps := [Mark, Check, FeederExit, ResizeLock, ResizeGrid(true), ResizeUpgrade, Wake];
      var s := Run(Start(false), steps, met);
      s.waiter == Returned(Ended) && met(s.grid) && s.LockFree()
  {
    var met := (g: bool) => g;
    var s := Start(false);
    Unroll(s, Mark, [Check, FeederExit, ResizeLock, ResizeGrid(true), ResizeUpgrade, Wake], met);
    s := Next(s, Mark, met);
    Unroll(s, Check, [FeederExit, ResizeLock, ResizeGrid(true), ResizeUpgrade, Wake], met);
    s := Next(s, Check, met);
    Unroll(s, FeederExit, [ResizeLock, ResizeGrid(true), ResizeUpgrade, Wake], met);
    s := Next(s, FeederExit, met);
    Unroll(s, ResizeLock, [ResizeGrid(true), ResizeUpgrade, Wake], met);
    s := Next(s, ResizeLock, met);
    Unroll(s, ResizeGrid(true), [ResizeUpgrade, Wake], met);
    s := Next(s, ResizeGrid(true), met);
    Unroll(s, ResizeUpgrade, [Wake], met);
    s := Next(s, ResizeUpgrade, met);
    Unroll(s, Wake, [], met);
  }

  lemma {:induction false} Unroll<G>(s: Session<G>, step: Step<G>, rest: seq<Step<G>>, met: G -> bool)
    ensures Run(s, [step] + rest, met) == Run(Next(s, step, met), rest, met)
  {
    assert ([step] + rest)[1..] == rest;
  }
}

/** The stability wait and the bounded tail of raw output. */
module StableWait {
  import opened Streams

  /** When `changed()` would resolve, and whether with a newer generation or because the sender is gone. */
  datatype Change = Never | Bump(at: nat) | Gone(at: nat)

  /** What one `select!` meets: the watch channel, when the waiter gets to run, and who wins a tie. */
  datatype Round = Round(change: Change, polled: nat, changeWins: bool)

  /** How one `select!` resolved and when the waiter resumed. */
  datatype Select = Changed(at: nat) | SenderGone(at: nat) | Slept(at: nat)

  datatype StableOutcome = Matched(elapsed: nat) | TimedOut(ended: bool) | StillWaiting

  function Earlier(a: nat, b: nat): nat {
    if a <= b then a else b
  }

  function Later(a: nat, b: nat): nat {
    if a <= b then b else a
  }

  /** Ready by `t`, if the branch is enabled at all. */
  predicate ChangeReady(r: Round, listening: bool, t: nat) {
    listening && !r.change.Never? && r.change.at <= t
  }

  /** When the waiter resumes: not before the first enabled branch is ready. */
  function Resumes(r: Round, now: nat, target: nat, listening: bool): nat {
    Later(now, Later(r.polled, if ChangeReady(r, listening, target) then r.change.at else target))
  }

  /** The runtime's side of one `select!` begun at `now`, sleeping until `target`. */
  function Resolve(r: Round, now: nat, target: nat, listening: bool): Select {
    var t := Resumes(r, now, target, listening);
    if ChangeReady(r, listening, t) && (t < target || r.changeWins) then
      if r.change.Bump? then Changed(t) else SenderGone(t)
    else Slept(t)
  }

  /** When iteration `k` begins: at the start, or when the previous select resumed. */
  function Begins(selects: seq<Select>, start: nat, k: nat): nat
    requires k <= |selects|
  {
    if k == 0 then start else selects[k - 1].at
  }

  predicate Listening(selects: seq<Select>, k: nat)
    requires k <= |selects|
  {
    forall j :: 0 <= j < k ==> !selects[j].SenderGone?
  }

  /** Select `k` resolved as the runtime would, its change branch enabled until the sender was seen gone. */
  predicate Resolved(rounds: seq<Round>, selects: seq<Select>, start: nat, window: nat, deadline: nat, k: nat)
    requires k < |selects| <= |rounds|
  {
    var now := Begins(selects, start, k);
    selects[k] == Resolve(rounds[k], now, Earlier(now + window, deadline), Listening(selects, k))
  }

  ghost predicate Follows(rounds: seq<Round>, selects: seq<Select>, start: nat, window: nat, deadline: nat) {
    && |selects| <= |rounds|
    && forall k :: 0 <= k < |selects| ==> Resolved(rounds, selects, start, window, deadline, k)
  }

  /** The last select slept a full window by the deadline; a change in it went unseen only if the waiter did not run. */
  predicate FullWindow(rounds: seq<Round>, selects: seq<Select>, start: nat, window: nat, deadline: nat)
    requires 0 < |selects| <= |rounds|
  {
    var last := |selects| - 1;
    var begins := Begins(selects, start, last);
    var change, polled := rounds[last].change, rounds[last].polled;
    && selects[last].Slept? && begins + window <= deadline && begins + window <= selects[last].at
    && (window > 0 && Listening(selects, last) && !change.Never? && change.at < begins + window ==> begins + window <= polled)
  }

  /** How many of the first `n` selects reported a change. */
  function Changes(selects: seq<Select>, n: nat): nat
    requires n <= |selects|
  {
    if n == 0 then 0 else Changes(selects, n - 1) + if selects[n - 1].Changed? then 1 else 0
  }

  /** None of the first `n` selects slept through its window or reached the deadline. */
  predicate Awake(selects: seq<Select>, n: nat, deadline: nat)
    requires n <= |selects|
  {
    forall k :: 0 <= k < n ==> !selects[k].Slept? && selects[k].at < deadline
  }

  /**
   * Waits until nothing changed for `window`. Against any runtime it takes at most two selects more
   * than the changes it saw, and just one, a sleep, after the sender is gone. It matches only when a
   * full window passed since the last change seen, by the deadline; a change inside that window can
   * have gone unseen only if the waiter did not get to run before the window's end.
   */
  method WaitStable(rounds: seq<Round>, start: nat, window: nat, deadline: nat)
    returns (r: StableOutcome, selects: seq<Select>)
    ensures Follows(rounds, selects, start, window, deadline)
    ensures r.StillWaiting? ==> |selects| == |rounds|
    ensures |selects| <= Changes(selects, |selects|) + 2
    ensures forall k :: 0 <= k < |selects| && selects[k].SenderGone? ==> |selects| <= k + 2
    ensures selects != [] ==> Awake(selects, |selects| - 1, deadline)
    ensures r.Matched? <==>
              && selects != [] && selects[|selects| - 1].Slept? && Begins(selects, start, |selects| - 1) + window <= deadline
    ensures r.Matched? ==>
              && selects != [] && FullWindow(rounds, selects, start, window, deadline)
              && r.elapsed == selects[|selects| - 1].at - start && r.elapsed >= window
    ensures r.TimedOut? ==>
              selects != [] && selects[|selects| - 1].at >= deadline && r.ended == !Listening(selects, |selects|)
    ensures !r.StillWaiting? ==>
              selects != [] && (selects[|selects| - 1].Slept? || selects[|selects| - 1].at >= deadline)
  {
    var gone := false;
    var now := start;
    selects := [];
    r := StillWaiting;
    while |selects| < |rounds|
      invariant now == Begins(selects, start, |selects|) && start <= now
      invariant gone == !Listening(selects, |selects|)
      invariant Follows(rounds, selects, start, window, deadline)
      invariant Awake(selects, |selects|, deadline)
      invariant r.StillWaiting?
    {
      var windowEnd := now + window;
      var s := Resolve(rounds[|selects|], now, Earlier(windowEnd, deadline), !gone);
      FollowsOneMore(rounds, selects, start, window, deadline, s);
      if s.Slept? && windowEnd <= deadline {
        SleptWindow(rounds, selects, start, window, deadline, s);
      }
      selects := selects + [s];
      now := s.at;
      if s.Slept? {
        r := if windowEnd <= deadline then Matched(now - start) else TimedOut(gone);
        break;
      }
      if s.SenderGone? {
        gone := true;
      }
      if now >= deadline {
        r := TimedOut(gone);
        break;
      }
    }
    FewSelects(rounds, selects, start, window, deadline);
  }

  lemma {:induction false} SamePrefix(selects: seq<Select>, s: Select, start: nat, k: nat)
    requires k <= |selects|
    ensures Begins(selects + [s], start, k) == Begins(selects, start, k)
    ensures Listening(selects + [s], k) == Listening(selects, k)
  {
    var more := selects + [s];
    assert forall j :: 0 <= j < k ==> more[j] == selects[j];
  }

  lemma {:induction false} ResumesLater(r: Round, now: nat, target: nat, listening: bool)
    ensures
      var s := Resolve(r, now, target, listening);
      && now <= s.at
      && (s.Slept? ==> target <= s.at)
      && (s.Slept? && now < target && ChangeReady(r, listening, target) && r.change.at < target ==> target <= r.polled)
  {
  }

  lemma {:induction false} FollowsOneMore(
    rounds: seq<Round>, selects: seq<Select>, start: nat, window: nat, deadline: nat, s: Select)
    requires Follows(rounds, selects, start, window, deadline) && |selects| < |rounds|
    requires
      var now := Begins(selects, start, |selects|);
      s == Resolve(rounds[|selects|], now, Earlier(now + window, deadline), Listening(selects, |selects|))
    ensures Follows(rounds, selects + [s], start, window, deadline)
    ensures Listening(selects + [s], |selects| + 1) == (Listening(selects, |selects|) && !s.SenderGone?)
    ensures Begins(selects, start, |selects|) <= s.at
  {
    var more, now := selects + [s], Begins(selects, start, |selects|);
    forall k | 0 <= k < |more|
      ensures Resolved(rounds, more, start, window, deadline, k)
    {
      SamePrefix(selects, s, start, k);
      if k < |selects| {
        assert Resolved(rounds, selects, start, window, deadline, k);
      }
    }
    SamePrefix(selects, s, start, |selects|);
    assert more[|selects|] == s;
    ResumesLater(rounds[|selects|], now, Earlier(now + window, deadline), Listening(selects, |selects|));
  }

  lemma {:induction false} SleptWindow(
    rounds: seq<Round>, selects: seq<Select>, start: nat, window: nat, deadline: nat, s: Select)
    requires |selects| < |rounds| && s.Slept? && Begins(selects, start, |selects|) + window <= deadline
    requires
      var now := Begins(selects, start, |selects|);
      s == Resolve(rounds[|selects|], now, now + window, Listening(selects, |selects|))
    ensures FullWindow(rounds, selects + [s], start, window, deadline)
  {
    var now := Begins(selects, start, |selects|);
    SamePrefix(selects, s, start, |selects|);
    ResumesLater(rounds[|selects|], now, now + window, Listening(selects, |selects|));
  }

  /** With the change branch disabled, only the sleep is left. */
  lemma {:induction false} GoneIsNearEnd(
    rounds: seq<Round>, selects: seq<Select>, start: nat, window: nat, deadline: nat, k: nat)
    requires Follows(rounds, selects, start, window, deadline) && k < |selects| && selects[k].SenderGone?
    requires Awake(selects, |selects| - 1, deadline)
    ensures |selects| <= k + 2
  {
    if k + 1 < |selects| {
      assert !Listening(selects, k + 1);
      assert Resolved(rounds, selects, start, window, deadline, k + 1);
      assert selects[k + 1].Slept?;
    }
  }

  /** All but the last select were changes, except that the one before it may have reported the sender gone. */
  lemma {:induction false} FewSelects(
    rounds: seq<Round>, selects: seq<Select>, start: nat, window: nat, deadline: nat)
    requires Follows(rounds, selects, start, window, deadline)
    requires selects != [] ==> Awake(selects, |selects| - 1, deadline)
    ensures forall k :: 0 <= k < |selects| && selects[k].SenderGone? ==> |selects| <= k + 2
    ensures |selects| <= Changes(selects, |selects|) + 2
  {
    forall k | 0 <= k < |selects| && selects[k].SenderGone?
      ensures |selects| <= k + 2
    {
      GoneIsNearEnd(rounds, selects, start, window, deadline, k);
    }
    assert forall k :: 0 <= k < |selects| - 2 ==> selects[k].Changed?;
    if |selects| > 2 {
      AllChanges(selects, |selects| - 2);
    }
  }

  lemma {:induction false} AllChanges(selects: seq<Select>, n: nat)
    requires n + 2 <= |selects| && forall k :: 0 <= k < n ==> selects[k].Changed?
    ensures n <= Changes(selects, n + 2)
  {
    CountAll(selects, n);
    assert Changes(selects, n + 1) >= Changes(selects, n);
  }

  lemma {:induction false} CountAll(selects: seq<Select>, n: nat)
    requires n <= |selects| && forall k :: 0 <= k < n ==> selects[k].Changed?
    ensures Changes(selects, n) == n
  {
    if n > 0 {
      CountAll(selects, n - 1);
    }
  }

  // ----- The raw tail -------------------------------------------------------

  const RAW_TAIL_CAP: nat := 2048

  function LastBytes(s: seq<byte>, n: nat): (r: seq<byte>)
    ensures |r| <= n && |r| <= |s| && r == s[|s| - |r|..] && (|r| == n || r == s)
  {
    if |s| <= n then s else s[|s| - n..]
  }

  class RawTail {
    var tail: seq<byte>

    constructor ()
      ensures tail == []
    {
      tail := [];
    }

    /** Appends, evicting from the front just enough to stay within the cap. */
    method Push(bytes: seq<byte>)
      modifies this
      ensures tail == LastBytes(old(tail) + bytes, RAW_TAIL_CAP)
    {
      if |bytes| >= RAW_TAIL_CAP {
        tail := bytes[|bytes| - RAW_TAIL_CAP..];
        return;
      }
      ghost var k := 0;
      while |tail| + |bytes| > RAW_TAIL_CAP
        invariant k <= |old(tail)| && tail == old(tail)[k..]
        invariant k > 0 ==> |tail| + |bytes| >= RAW_TAIL_CAP
        decreases |tail|
      {
        tail := tail[1..];
        k := k + 1;
      }
      tail := tail + bytes;
    }
  }

  /** The tail after a sequence of pushes. */
  function TailAfter(chunks: seq<seq<byte>>): seq<byte> {
    if chunks == [] then []
    else LastBytes(TailAfter(chunks[..|chunks| - 1]) + chunks[|chunks| - 1], RAW_TAIL_CAP)
  }

  /** However the output was chunked, the tail is the last 2048 bytes of all of it. */
  lemma {:induction false} TailIsSuffix(chunks: seq<seq<byte>>)
    ensures TailAfter(chunks) == LastBytes(Flatten(chunks), RAW_TAIL_CAP)
  {
    if chunks != [] {
      var last := |chunks| - 1;
      TailIsSuffix(chunks[..last]);
      assert chunks == chunks[..last] + [chunks[last]];
      FlattenConcat(chunks[..last], [chunks[last]]);
      FlattenOne(chunks[last]);
      LastBytesChain(Flatten(chunks[..last]), chunks[last]);
    }
  }

  lemma {:induction false} LastBytesDrop(p: seq<byte>, s: seq<byte>, n: nat)
    requires n <= |s|
    ensures LastBytes(p + s, n) == LastBytes(s, n)
  {
    assert (p + s)[|p| + |s| - n..] == s[|s| - n..];
  }

  lemma {:induction false} LastBytesChain(a: seq<byte>, b: seq<byte>)
    ensures LastBytes(LastBytes(a, RAW_TAIL_CAP) + b, RAW_TAIL_CAP) == LastBytes(a + b, RAW_TAIL_CAP)
  {
    if |a| > RAW_TAIL_CAP {
      var p, t := a[..|a| - RAW_TAIL_CAP], LastBytes(a, RAW_TAIL_CAP);
      assert a == p + t;
      assert a + b == p + (t + b);
      LastBytesDrop(p, t + b, RAW_TAIL_CAP);
    }
  }
}
