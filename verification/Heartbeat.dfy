/** The adaptive heartbeat: phases decay with time since the last stimulus, but only when someone looks. */
module Heartbeat {

  datatype Phase = Alert | Elevated | Resting | Drowsy | Dreaming

  datatype Threshold = Threshold(from: Phase, to: Phase, afterMs: int)

  const MINUTE_MS: int := 60 * 1000

  const THRESHOLDS: seq<Threshold> := [
    Threshold(Alert, Elevated, 2 * MINUTE_MS),
    Threshold(Elevated, Resting, 5 * MINUTE_MS),
    Threshold(Resting, Drowsy, 15 * MINUTE_MS),
    Threshold(Drowsy, Dreaming, 30 * MINUTE_MS)]

  function Depth(p: Phase): nat {
    match p
    case Alert => 0
    case Elevated => 1
    case Resting => 2
    case Drowsy => 3
    case Dreaming => 4
  }

  /** The deepest phase reached `elapsed` after a stimulus that left it alert. */
  function Settled(elapsed: int): Phase {
    if elapsed > 30 * MINUTE_MS then Dreaming
    else if elapsed > 15 * MINUTE_MS then Drowsy
    else if elapsed > 5 * MINUTE_MS then Resting
    else if elapsed > 2 * MINUTE_MS then Elevated
    else Alert
  }

  /** One look: the phase moves to where the elapsed time has settled, and never back up. */
  function Decay(p: Phase, elapsed: int): Phase {
    if Depth(p) < Depth(Settled(elapsed)) then Settled(elapsed) else p
  }

  function Later(a: int, b: int): int {
    if a <= b then b else a
  }

  /** Two looks are one look at the later time. */
  lemma {:induction false} DecayTwice(p: Phase, a: int, b: int)
    ensures Decay(Decay(p, a), b) == Decay(p, Later(a, b))
  {
  }

  class Heartbeat {
    var phase: Phase
    var lastStimulus: int

    constructor (now: int)
      ensures phase == Resting && lastStimulus == now
    {
      phase, lastStimulus := Resting, now;
    }

    /** The program's pass over the thresholds: several steps may fire in one pass. */
    method AutoDecay(now: int)
      modifies this`phase
      ensures phase == Decay(old(phase), now - lastStimulus)
    {
      if phase == Dreaming {
        return;
      }
      var elapsed := now - lastStimulus;
      for i := 0 to |THRESHOLDS|
        invariant phase == Stepped(old(phase), elapsed, i)
      {
        var t := THRESHOLDS[i];
        if phase == t.from && elapsed > t.afterMs {
          phase := t.to;
        }
      }
      SteppedIsDecay(old(phase), elapsed);
    }

    method Current(now: int) returns (p: Phase)
      modifies this`phase
      ensures p == phase == Decay(old(phase), now - lastStimulus)
    {
      AutoDecay(now);
      return phase;
    }

    method Stimulate(now: int)
      modifies this
      ensures phase == Alert && lastStimulus == now
    {
      phase, lastStimulus := Alert, now;
    }

    method ForceDreaming(now: int)
      modifies this
      ensures phase == Dreaming && lastStimulus == now - 60 * MINUTE_MS
    {
      phase, lastStimulus := Dreaming, now - 60 * MINUTE_MS;
    }
  }

  /** The phase after the first `n` thresholds of one pass. */
  function Stepped(p: Phase, elapsed: int, n: nat): Phase
    requires n <= |THRESHOLDS|
  {
    if n == 0 then p
    else
      var q, t := Stepped(p, elapsed, n - 1), THRESHOLDS[n - 1];
      if q == t.from && elapsed > t.afterMs then t.to else q
  }

  lemma {:induction false} SteppedIsDecay(p: Phase, elapsed: int)
    ensures Stepped(p, elapsed, |THRESHOLDS|) == Decay(p, elapsed)
  {
    assert Stepped(p, elapsed, 0) == p;
    var one := if p == Alert && elapsed > 2 * MINUTE_MS then Elevated else p;
    assert Stepped(p, elapsed, 1) == one;
    var two := if one == Elevated && elapsed > 5 * MINUTE_MS then Resting else one;
    assert Stepped(p, elapsed, 2) == two;
    var three := if two == Resting && elapsed > 15 * MINUTE_MS then Drowsy else two;
    assert Stepped(p, elapsed, 3) == three;
    assert Stepped(p, elapsed, 4) == if three == Drowsy && elapsed > 30 * MINUTE_MS then Dreaming else three;
  }

  // ----- Polling never matters ----------------------------------------------

  /** The phase after looking at each of `times` in turn, none of them a stimulus. */
  function Looked(p: Phase, lastStimulus: int, times: seq<int>): Phase {
    if times == [] then p
    else Decay(Looked(p, lastStimulus, times[..|times| - 1]), times[|times| - 1] - lastStimulus)
  }

  function Latest(times: seq<int>): int
    requires times != []
  {
    if |times| == 1 then times[0] else Later(Latest(times[..|times| - 1]), times[|times| - 1])
  }

  /** Any number of looks, at any times, leave the phase of one look at the latest of them. */
  lemma {:induction false} ManyLooksAreOne(p: Phase, lastStimulus: int, times: seq<int>)
    requires times != []
    ensures Looked(p, lastStimulus, times) == Decay(p, Latest(times) - lastStimulus)
  {
    var front, last := times[..|times| - 1], times[|times| - 1];
    if front == [] {
      assert Looked(p, lastStimulus, front) == p;
    } else {
      ManyLooksAreOne(p, lastStimulus, front);
      DecayTwice(p, Latest(front) - lastStimulus, last - lastStimulus);
    }
  }

  predicate Nondecreasing(times: seq<int>) {
    forall i, j :: 0 <= i <= j < |times| ==> times[i] <= times[j]
  }

  lemma {:induction false} LatestIsLast(times: seq<int>)
    requires times != [] && Nondecreasing(times)
    ensures Latest(times) == times[|times| - 1]
  {
    if |times| > 1 {
      LatestIsLast(times[..|times| - 1]);
    }
  }

  /** With a clock that never goes back, only the last reading matters, not how often the phase was read before it. */
  lemma {:induction false} PollingNeverMatters(p: Phase, lastStimulus: int, times: seq<int>)
    requires times != [] && Nondecreasing(times)
    ensures Looked(p, lastStimulus, times) == Looked(p, lastStimulus, [times[|times| - 1]])
  {
    ManyLooksAreOne(p, lastStimulus, times);
    ManyLooksAreOne(p, lastStimulus, [times[|times| - 1]]);
    LatestIsLast(times);
  }
}
