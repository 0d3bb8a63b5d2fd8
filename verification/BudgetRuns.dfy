/**
 * Whole runs of gate, call and record. A gate's rolls are not stored, so what the
 * limits guarantee only shows over runs. The clock may jump back between events.
 */
module BudgetRuns {
  import opened Text
  import opened Keys
  import opened Catalog
  import opened Budget

  /**
   * One gated unit of work. `Plan` and `Draft` are driver calls that spent `usage`: a plan after its
   * reservation fitted under `ceiling` at `reserve`, a draft for the lines `changes`, hashed to `hash`.
   * `Act` ran an action that spent `usage` and was charged unless its agent never started. `forced`
   * calls skip the schedule.
   */
  datatype Event =
    | Plan(gate: Now, usage: Option<Usage>, spent: Now, forced: bool, reserve: Now, ceiling: nat)
    | Act(gate: Now, usage: Option<Usage>, spent: Now, key: string, overrides: map<string, real>, charge: Option<Now>)
    | Draft(gate: Now, usage: Option<Usage>, spent: Now, forced: bool, cooldownMs: int, changes: seq<string>, hash: string)

  function SourceOf(e: Event): TokenSource {
    if e.Plan? then TokenSource.Planner else if e.Act? then Agentic else AutoCommit
  }

  /** A planner call is only made with its reservation free under the ceiling. */
  predicate Reserved(c: Counters, now: Now, ceiling: nat) {
    RollTokens(c, now).tokensToday + PLANNER_RESERVE <= ceiling
  }

  predicate Permitted(c: Counters, l: Limits, e: Event) {
    if e.Plan? then !CeilingReached(c, e.gate, EffectiveCeiling(ForDreams, l)) && Reserved(c, e.reserve, e.ceiling)
    else if e.Draft? then !CeilingReached(c, e.gate, EffectiveCeiling(ForAutoCommit, l))
    else CanRunAction(c, e.key, TierOf(e.key), ClassOf(e.key), e.gate, l, e.overrides).Ok?
  }

  function Spend(c: Counters, e: Event): Counters {
    if e.usage.Some? then RecordTokens(c, e.usage, Some(SourceOf(e)), e.spent) else c
  }

  function Charge(c: Counters, e: Event): Counters {
    if e.Act? && e.charge.Some? then RecordAction(c, e.key, TierOf(e.key), e.charge.value) else c
  }

  function Step(c: Counters, l: Limits, e: Event): Counters {
    if Permitted(c, l, e) then Charge(Spend(c, e), e) else c
  }

  function Run(c: Counters, l: Limits, es: seq<Event>): Counters {
    if es == [] then c else Step(Run(c, l, es[..|es| - 1]), l, es[|es| - 1])
  }

  /** A record is never dated before its gate. Between events the clock may go anywhere. */
  predicate InOrder(e: Event) {
    && AtMost(e.gate.today, e.spent.today)
    && (e.Plan? ==> AtMost(e.reserve.today, e.spent.today))
    && (e.Act? && e.charge.Some? ==>
          && AtMost(e.gate.today, e.charge.value.today)
          && AtMost(e.gate.week, e.charge.value.week)
          && e.gate.ms <= e.charge.value.ms)
  }

  predicate AllInOrder(es: seq<Event>) {
    forall i :: 0 <= i < |es| ==> InOrder(es[i])
  }

  // ----- Caps under an arbitrary clock --------------------------------------

  /** What a run charged, period by period: `charged[k]` actions under key `k`. */
  datatype Tally = Tally(total: nat, rolls: nat, charged: map<string, nat>)

  const Nothing := Tally(0, 0, map[])

  function Add(t: Tally, r: Roll, n: nat): Tally {
    Tally(
      t.total + n,
      t.rolls + (if r.rolled then 1 else 0),
      t.charged[r.key := n + if r.key in t.charged then t.charged[r.key] else 0])
  }

  function DayTally(c: Counters, l: Limits, es: seq<Event>): Tally {
    if es == [] then Nothing
    else
      var before, e, t := Run(c, l, es[..|es| - 1]), es[|es| - 1], DayTally(c, l, es[..|es| - 1]);
      if Permitted(before, l, e) && e.Act? && e.charge.Some? then Add(t, RollDaily(before, e.charge.value), 1) else t
  }

  function WeekTally(c: Counters, l: Limits, es: seq<Event>): Tally {
    if es == [] then Nothing
    else
      var before, e, t := Run(c, l, es[..|es| - 1]), es[|es| - 1], WeekTally(c, l, es[..|es| - 1]);
      if Permitted(before, l, e) && e.Act? && e.charge.Some? then
        Add(t, RollWeekly(before, e.charge.value), if TierOf(e.key) == Weekly then 1 else 0)
      else t
  }

  /** The stored count is the current period's tally; no period, past or current, exceeds the cap. */
  ghost predicate Tallied(t: Tally, count: nat, last: Option<string>, cap: nat) {
    && count <= cap
    && |t.charged| == t.rolls
    && (last.None? ==> t == Nothing && count == 0)
    && (last.Some? ==>
          && last.value in t.charged && t.charged[last.value] == count
          && t.total <= cap * (t.rolls - 1) + count)
    && (forall k :: k in t.charged ==> t.charged[k] <= cap && (last.Some? ==> AtMost(k, last.value)))
  }

  lemma {:induction false} AddTallied(t: Tally, count: nat, last: Option<string>, cap: nat, key: string, n: nat)
    requires Tallied(t, count, last, cap)
    requires RollCount(count, last, key).count + n <= cap
    ensures
      var r := RollCount(count, last, key);
      Tallied(Add(t, r, n), r.count + n, Some(r.key), cap)
  {
    if RollCount(count, last, key).rolled {
      AddRolled(t, count, last, cap, key, n);
    } else {
      assert Add(t, RollCount(count, last, key), n).charged.Keys == t.charged.Keys;
    }
  }

  /** A new period: its key is later than every other, so its tally starts from nothing. */
  lemma {:induction false} AddRolled(t: Tally, count: nat, last: Option<string>, cap: nat, key: string, n: nat)
    requires Tallied(t, count, last, cap) && RollCount(count, last, key).rolled && n <= cap
    ensures Tallied(Add(t, RollCount(count, last, key), n), n, Some(key), cap)
  {
    var u := Add(t, RollCount(count, last, key), n);
    RolledKeyIsNew(t, count, last, cap, key);
    assert u.charged.Keys == t.charged.Keys + {key};
    if last.Some? {
      AddRoll(cap, t.rolls, t.total, count, n);
    }
    forall k | k in u.charged
      ensures u.charged[k] <= cap && AtMost(k, key)
    {
      if k != key {
        Transitive(k, last.value, key);
      }
    }
  }

  lemma {:induction false} RolledKeyIsNew(t: Tally, count: nat, last: Option<string>, cap: nat, key: string)
    requires Tallied(t, count, last, cap) && RollCount(count, last, key).rolled
    ensures key !in t.charged
    ensures last.Some? ==> Less(last.value, key)
  {
    if last.Some? {
      Trichotomy(last.value, key);
    }
  }

  lemma {:induction false} AddRoll(cap: nat, rolls: nat, total: nat, count: nat, n: nat)
    requires total <= cap * (rolls - 1) + count && count <= cap
    ensures total + n <= cap * rolls + n
  {
    assert cap * rolls == cap * (rolls - 1) + cap;
  }

  lemma {:induction false} PermittedLeavesRoom(c: Counters, l: Limits, e: Event)
    requires Permitted(c, l, e) && InOrder(e) && e.Act? && e.charge.Some?
    ensures RollDaily(c, e.charge.value).count < l.dailyCap
    ensures TierOf(e.key) == Weekly ==> RollWeekly(c, e.charge.value).count < l.weeklyCap
  {
    LaterRollIsSmaller(c.actionsToday, c.lastActionDate, e.gate.today, e.charge.value.today);
    LaterRollIsSmaller(c.actionsThisWeek, c.lastActionWeek, e.gate.week, e.charge.value.week);
  }

  lemma {:induction false} StepTallied(c: Counters, l: Limits, e: Event, days: Tally, weeks: Tally)
    requires InOrder(e) && Permitted(c, l, e) && e.Act? && e.charge.Some?
    requires Tallied(days, c.actionsToday, c.lastActionDate, l.dailyCap)
    requires Tallied(weeks, c.actionsThisWeek, c.lastActionWeek, l.weeklyCap)
    ensures
      var n := Step(c, l, e);
      && Tallied(Add(days, RollDaily(c, e.charge.value), 1), n.actionsToday, n.lastActionDate, l.dailyCap)
      && Tallied(Add(weeks, RollWeekly(c, e.charge.value), if TierOf(e.key) == Weekly then 1 else 0),
                 n.actionsThisWeek, n.lastActionWeek, l.weeklyCap)
  {
    var charge := e.charge.value;
    PermittedLeavesRoom(c, l, e);
    AddTallied(days, c.actionsToday, c.lastActionDate, l.dailyCap, charge.today, 1);
    RollWithin(c.actionsThisWeek, c.lastActionWeek, charge.week);
    AddTallied(weeks, c.actionsThisWeek, c.lastActionWeek, l.weeklyCap, charge.week,
               if TierOf(e.key) == Weekly then 1 else 0);
  }

  lemma {:induction false} RollWithin(count: nat, last: Option<string>, key: string)
    ensures RollCount(count, last, key).count <= count
  {
  }

  lemma {:induction false} RunTallied(l: Limits, es: seq<Event>)
    requires AllInOrder(es)
    ensures
      var c := Run(Empty, l, es);
      && Tallied(DayTally(Empty, l, es), c.actionsToday, c.lastActionDate, l.dailyCap)
      && Tallied(WeekTally(Empty, l, es), c.actionsThisWeek, c.lastActionWeek, l.weeklyCap)
    decreases |es|
  {
    if es != [] {
      var front, e := es[..|es| - 1], es[|es| - 1];
      RunTallied(l, front);
      var c := Run(Empty, l, front);
      if Permitted(c, l, e) && e.Act? && e.charge.Some? {
        StepTallied(c, l, e, DayTally(Empty, l, front), WeekTally(Empty, l, front));
      }
    }
  }

  /**
   * Over every run from the empty state, however the clock moves between events: the counts
   * stay within their caps, no date or week is ever charged more than its cap, and the totals
   * are at most the cap times the number of days, or weeks, begun.
   */
  lemma {:induction false} CapsHoldOverRuns(l: Limits, es: seq<Event>)
    requires AllInOrder(es)
    ensures
      var c, days, weeks := Run(Empty, l, es), DayTally(Empty, l, es), WeekTally(Empty, l, es);
      && c.actionsToday <= l.dailyCap && c.actionsThisWeek <= l.weeklyCap
      && (forall k :: k in days.charged ==> days.charged[k] <= l.dailyCap)
      && (forall k :: k in weeks.charged ==> weeks.charged[k] <= l.weeklyCap)
      && days.total <= l.dailyCap * days.rolls && weeks.total <= l.weeklyCap * weeks.rolls
      && days.rolls == |days.charged| && weeks.rolls == |weeks.charged|
  {
    RunTallied(l, es);
    var c := Run(Empty, l, es);
    TalliedBounds(DayTally(Empty, l, es), c.actionsToday, c.lastActionDate, l.dailyCap);
    TalliedBounds(WeekTally(Empty, l, es), c.actionsThisWeek, c.lastActionWeek, l.weeklyCap);
  }

  lemma {:induction false} TalliedBounds(t: Tally, count: nat, last: Option<string>, cap: nat)
    requires Tallied(t, count, last, cap)
    ensures t.total <= cap * t.rolls
  {
    if last.Some? {
      FullPeriods(cap, t.rolls, t.total, count);
    }
  }

  lemma {:induction false} FullPeriods(cap: nat, rolls: nat, total: nat, count: nat)
    requires total <= cap * (rolls - 1) + count && count <= cap
    ensures total <= cap * rolls
  {
    assert cap * rolls == cap * (rolls - 1) + cap;
  }

  predicate NotBefore(last: Option<string>, next: Option<string>) {
    last.Some? ==> next.Some? && AtMost(last.value, next.value)
  }

  lemma {:induction false} NotBeforeChain(a: Option<string>, b: Option<string>, c: Option<string>)
    requires NotBefore(a, b) && NotBefore(b, c)
    ensures NotBefore(a, c)
  {
    if a.Some? {
      Transitive(a.value, b.value, c.value);
    }
  }

  /** Stored keys never go back, whatever the clock does, gated or not, in order or not. */
  lemma {:induction false} KeysNeverGoBack(c: Counters, l: Limits, es: seq<Event>)
    ensures
      var n := Run(c, l, es);
      && NotBefore(c.lastActionDate, n.lastActionDate)
      && NotBefore(c.lastActionWeek, n.lastActionWeek)
      && NotBefore(c.lastTokenDate, n.lastTokenDate)
    decreases |es|
  {
    if es != [] {
      var front, e := es[..|es| - 1], es[|es| - 1];
      KeysNeverGoBack(c, l, front);
      var m, n := Run(c, l, front), Run(c, l, es);
      LaterRollIsSmaller(Spent(m), m.lastTokenDate, e.spent.today, e.spent.today);
      if e.Act? && e.charge.Some? {
        LaterRollIsSmaller(m.actionsToday, m.lastActionDate, e.charge.value.today, e.charge.value.today);
        LaterRollIsSmaller(m.actionsThisWeek, m.lastActionWeek, e.charge.value.week, e.charge.value.week);
      }
      NotBeforeChain(c.lastActionDate, m.lastActionDate, n.lastActionDate);
      NotBeforeChain(c.lastActionWeek, m.lastActionWeek, n.lastActionWeek);
      NotBeforeChain(c.lastTokenDate, m.lastTokenDate, n.lastTokenDate);
    }
  }

  /**
   * Exactly when one gated charge keeps a cap: unless the count is full, the gate rolled it
   * away, and the charge, dated back to the stored period or before, did not.
   */
  lemma {:induction false} CapKeptIff(count: nat, last: Option<string>, cap: nat, gate: string, charge: string)
    requires count <= cap
    requires RollCount(count, last, gate).count < cap
    ensures RollCount(count, last, charge).count + 1 <= cap
       <==> !(count == cap && last.Some? && Less(last.value, gate) && AtMost(charge, last.value))
  {
    if last.Some? {
      Trichotomy(last.value, gate);
      Trichotomy(last.value, charge);
    }
  }

  /** With a charge dated before its gate, two actions fit under a daily cap of one. */
  lemma {:induction false} BackdatedChargeExceedsCap(day: string, later: string, week: string, key: string, other: string)
    requires Less(day, later) && key != other && TierOf(key) == TierOf(other) == Daily
    ensures
      var l, before, after := Limits(1, 1, 0, 100, 0), Now(0, day, week), Now(1, later, week);
      Run(Empty, l, [Act(before, None, before, key, map[], Some(before)),
                     Act(after, None, after, other, map[], Some(before))]).actionsToday == 2
  {
    var l, before, after := Limits(1, 1, 0, 100, 0), Now(0, day, week), Now(1, later, week);
    var first := Act(before, None, before, key, map[], Some(before));
    var second := Act(after, None, after, other, map[], Some(before));
    assert [first, second][..1] == [first] && [first][..0] == [];
    assert Run(Empty, l, []) == Empty;
    var c := Step(Empty, l, first);
    assert Run(Empty, l, [first]) == c;
    assert c.actionsToday == 1 && c.lastActionDate == Some(day);
    Trichotomy(day, later);
    Trichotomy(day, day);
    assert Permitted(c, l, second);
  }

  // ----- Token overshoot ----------------------------------------------------

  /** At most one call past the ceiling, the largest of the day; the total is the per-source sum. */
  predicate WithinCeiling(c: Counters, l: Limits) {
    && c.tokensToday == Spent(c)
    && c.maxCallTokens <= c.tokensToday
    && (c.tokensToday == 0 || c.tokensToday < l.ceiling + c.maxCallTokens)
    && (c.bySource.None? ==> c.tokensToday == 0)
  }

  predicate OnlyDraftsSpent(c: Counters) {
    c.bySource.Some? && OrZero(c.bySource.value.planner) == 0 && OrZero(c.bySource.value.agentic) == 0
  }

  predicate DraftsWithinReserve(c: Counters, l: Limits) {
    OnlyDraftsSpent(c) ==> c.tokensToday == 0 || c.tokensToday < EffectiveCeiling(ForAutoCommit, l) + c.maxCallTokens
  }

  lemma {:induction false} PermittedBelowCeiling(c: Counters, l: Limits, e: Event)
    requires Permitted(c, l, e) && AtMost(e.gate.today, e.spent.today)
    ensures RollTokens(c, e.spent).tokensToday < l.ceiling
    ensures e.Draft? ==> RollTokens(c, e.spent).tokensToday < EffectiveCeiling(ForAutoCommit, l)
  {
    LaterRollIsSmaller(Spent(c), c.lastTokenDate, e.gate.today, e.spent.today);
  }

  lemma {:induction false} SpendWithin(c: Counters, l: Limits, e: Event)
    requires WithinCeiling(c, l) && DraftsWithinReserve(c, l) && Permitted(c, l, e) && InOrder(e)
    ensures WithinCeiling(Spend(c, e), l) && DraftsWithinReserve(Spend(c, e), l)
  {
    if e.usage.Some? {
      PermittedBelowCeiling(c, l, e);
      SpendIsExact(c, e.usage, Some(SourceOf(e)), e.spent);
      var n, t, add := Spend(c, e), RollTokens(c, e.spent), Envelope(e.usage);
      assert n.maxCallTokens >= add && n.maxCallTokens >= t.maxCallTokens;
      assert t.maxCallTokens <= t.tokensToday;
      DraftSpend(c, l, e);
    }
  }

  lemma {:induction false} DraftSpend(c: Counters, l: Limits, e: Event)
    requires WithinCeiling(c, l) && DraftsWithinReserve(c, l) && Permitted(c, l, e) && InOrder(e) && e.usage.Some?
    ensures DraftsWithinReserve(Spend(c, e), l)
  {
    PermittedBelowCeiling(c, l, e);
    SpendIsExact(c, e.usage, Some(SourceOf(e)), e.spent);
    var n, t := Spend(c, e), RollTokens(c, e.spent);
    if OnlyDraftsSpent(n) && !e.Draft? {
      assert t.bySource.Some? ==> OnlyDraftsSpent(c) && Envelope(e.usage) == 0;
    }
  }

  /**
   * Over every run with a fixed ceiling, mixing planner, agentic and draft calls: the day's
   * tokens are zero or below the ceiling plus the day's largest call; while only drafts have
   * spent that day, the same holds of the ceiling less the reserve.
   */
  lemma {:induction false} OvershootIsOneCall(l: Limits, es: seq<Event>)
    requires AllInOrder(es)
    ensures WithinCeiling(Run(Empty, l, es), l) && DraftsWithinReserve(Run(Empty, l, es), l)
    decreases |es|
  {
    if es != [] {
      var front, e := es[..|es| - 1], es[|es| - 1];
      OvershootIsOneCall(l, front);
      var c := Run(Empty, l, front);
      if Permitted(c, l, e) {
        SpendWithin(c, l, e);
      }
    }
  }

  /** Spend of the event, if it is a planner call within its reservation. */
  predicate SmallPlan(e: Event, ceiling: nat) {
    e.Plan? && e.ceiling == ceiling && Envelope(e.usage) <= PLANNER_RESERVE
  }

  /** A planner call within its reservation never takes the day past the ceiling. */
  lemma {:induction false} ReservationHolds(c: Counters, l: Limits, e: Event)
    requires Permitted(c, l, e) && InOrder(e) && SmallPlan(e, l.ceiling)
    ensures e.usage.Some? ==> Step(c, l, e).tokensToday <= l.ceiling
    ensures Step(c, l, e).tokensToday <= l.ceiling || Step(c, l, e) == c
  {
    if e.usage.Some? {
      LaterRollIsSmaller(Spent(c), c.lastTokenDate, e.reserve.today, e.spent.today);
      SpendIsExact(c, e.usage, Some(TokenSource.Planner), e.spent);
    }
  }

  /** So over every run in which only such calls spend, the ceiling is never passed at all. */
  lemma {:induction false} PlannersStayWithin(l: Limits, es: seq<Event>)
    requires AllInOrder(es) && forall i :: 0 <= i < |es| ==> es[i].usage.None? || SmallPlan(es[i], l.ceiling)
    ensures Run(Empty, l, es).tokensToday <= l.ceiling
    decreases |es|
  {
    if es != [] {
      var front, e := es[..|es| - 1], es[|es| - 1];
      PlannersStayWithin(l, front);
      var c := Run(Empty, l, front);
      if Permitted(c, l, e) && e.usage.Some? {
        ReservationHolds(c, l, e);
      }
    }
  }

  // ----- Cooldown floors ----------------------------------------------------

  /** Overrides may lengthen a class's cooldown, never shorten it. */
  predicate Lengthens(overrides: map<string, real>) {
    forall k :: k in overrides ==> overrides[k] >= Floor(ClassOf(k)) as real
  }

  /** The i-th event ran and was charged. */
  ghost predicate Charged(c: Counters, l: Limits, es: seq<Event>, i: nat) {
    i < |es| && es[i].Act? && es[i].charge.Some? && Permitted(Run(c, l, es[..i]), l, es[i])
  }

  lemma {:induction false} FloorAtGate(c: Counters, l: Limits, e: Event)
    requires Permitted(c, l, e) && e.Act? && Lengthens(e.overrides) && e.key in c.recentActions
    ensures e.gate.ms >= c.recentActions[e.key] + Floor(ClassOf(e.key))
  {
  }

  predicate OnRecord(c: Counters, key: string, at: int) {
    key in c.recentActions && at <= c.recentActions[key]
  }

  lemma {:induction false} StepRecords(c: Counters, l: Limits, e: Event, next: Counters)
    requires Permitted(c, l, e) && e.Act? && e.charge.Some? && e.key != "" && next == Step(c, l, e)
    ensures OnRecord(next, e.key, e.charge.value.ms)
  {
  }

  lemma {:induction false} StepKeepsRecord(c: Counters, l: Limits, e: Event, next: Counters, key: string, at: int)
    requires InOrder(e) && (e.Act? ==> Lengthens(e.overrides)) && OnRecord(c, key, at) && next == Step(c, l, e)
    ensures OnRecord(next, key, at)
  {
    if Permitted(c, l, e) && e.Act? && e.key == key {
      FloorAtGate(c, l, e);
    }
  }

  lemma {:induction false} RunConcat(c: Counters, l: Limits, a: seq<Event>, b: seq<Event>)
    ensures Run(c, l, a + b) == Run(Run(c, l, a), l, b)
    decreases |b|
  {
    if b == [] {
      assert a + b == a;
    } else {
      assert (a + b)[..|a + b| - 1] == a + b[..|b| - 1];
      RunConcat(c, l, a, b[..|b| - 1]);
    }
  }

  ghost predicate AllLengthen(es: seq<Event>) {
    forall e :: e in es && e.Act? ==> Lengthens(e.overrides)
  }

  /** A record stays, or a later charge of the same key replaces it. */
  lemma {:induction false} RecordStays(c: Counters, l: Limits, es: seq<Event>, key: string, at: int)
    requires OnRecord(c, key, at) && AllInOrder(es) && AllLengthen(es)
    ensures OnRecord(Run(c, l, es), key, at)
    decreases |es|
  {
    if es != [] {
      var front, e := es[..|es| - 1], es[|es| - 1];
      assert e in es && forall x :: x in front ==> x in es;
      RecordStays(c, l, front, key, at);
      StepKeepsRecord(Run(c, l, front), l, e, Run(c, l, es), key, at);
    }
  }

  lemma {:induction false} ChargeStays(c: Counters, l: Limits, front: seq<Event>, e: Event, rest: seq<Event>)
    requires Permitted(Run(c, l, front), l, e) && e.Act? && e.charge.Some? && e.key != ""
    requires AllInOrder(rest) && AllLengthen(rest)
    ensures OnRecord(Run(c, l, front + [e] + rest), e.key, e.charge.value.ms)
  {
    var next := Run(c, l, front + [e]);
    assert (front + [e])[..|front|] == front;
    StepRecords(Run(c, l, front), l, e, next);
    RunConcat(c, l, front + [e], rest);
    RecordStays(next, l, rest, e.key, e.charge.value.ms);
  }

  lemma {:induction false} Around(es: seq<Event>, i: nat, j: nat)
    requires i < j <= |es| && AllInOrder(es) && AllLengthen(es)
    ensures es[..j] == es[..i] + [es[i]] + es[i + 1..j]
    ensures AllInOrder(es[i + 1..j]) && AllLengthen(es[i + 1..j])
  {
    assert forall x :: x in es[i + 1..j] ==> x in es;
  }

  /**
   * Over any run with changing rosters: an action key that was charged passes its gate again
   * no sooner than its class's floor after that charge, even if the clock goes back between.
   */
  lemma {:induction false} FloorsHoldOverRuns(c: Counters, l: Limits, es: seq<Event>, i: nat, j: nat)
    requires i < j < |es| && AllInOrder(es)
    requires Charged(c, l, es, i) && Permitted(Run(c, l, es[..j]), l, es[j]) && es[j].Act?
    requires es[i].key == es[j].key != "" && AllLengthen(es)
    ensures es[j].gate.ms >= es[i].charge.value.ms + Floor(ClassOf(es[i].key))
  {
    Around(es, i, j);
    ChargeStays(c, l, es[..i], es[i], es[i + 1..j]);
    FloorAtGate(Run(c, l, es[..j]), l, es[j]);
  }
}
