/** The daemon's ticks: at most one draft attempt, then at most one dream cycle, over one state. */
module Daemon {
  import opened Text
  import opened Keys
  import opened Catalog
  import opened Budget
  import opened BudgetRuns
  import opened StateManager
  import opened Somniator
  import AutoCommit
  import Porcelain
  import Charter

  datatype Tick = Tick(draft: Option<AutoCommit.Attempt>, dream: Option<World>)

  // ----- What is assumed of a tick ------------------------------------------

  predicate SameLimits(b: Budgets, l: Limits) {
    && b.dailyCap.value == l.dailyCap && b.weeklyCap.value == l.weeklyCap && b.cooldownMs.value == l.cooldownMs
    && b.ceiling.value == l.ceiling && b.reserve.value == l.reserve
  }

  /** Configured limits stay as they are; rosters, flags and outcomes may change from tick to tick. */
  ghost predicate Steady(t: Tick, l: Limits) {
    && (t.draft.Some? ==> t.draft.value.limits == l)
    && (t.dream.Some? ==> SameLimits(t.dream.value.budgets, l) && Charter.Tightens(t.dream.value.roster))
  }

  predicate NotEarlier(a: Now, b: Now) {
    AtMost(a.today, b.today) && AtMost(a.week, b.week) && a.ms <= b.ms
  }

  /** Within a tick no record is dated before its gate; between ticks the clock may go anywhere. */
  predicate Dated(t: Tick) {
    && (t.draft.Some? ==> NotEarlier(t.draft.value.now, t.draft.value.spent))
    && (t.dream.Some? ==>
          var k := t.dream.value.clocks;
          && NotEarlier(k.gate, k.planSpent) && NotEarlier(k.snapshot, k.planSpent) && NotEarlier(k.plan, k.planSpent)
          && NotEarlier(k.actionGate, k.agentSpent) && NotEarlier(k.actionGate, k.charge))
  }

  lemma {:induction false} CycleEventsInOrder(w: World, events: seq<Event>)
    requires Dated(Tick(None, Some(w))) && forall e :: e in events ==> ClockedBy(w, e)
    ensures AllInOrder(events)
  {
    forall i | 0 <= i < |events|
      ensures InOrder(events[i])
    {
      assert events[i] in events;
    }
  }

  // ----- Spacing ------------------------------------------------------------

  function Shortest(a: int, b: int): int {
    if a <= b then a else b
  }

  /** Any un-forced planner call passes its gate `gap` or more after every earlier planner call returned. */
  ghost predicate PlansSpaced(log: seq<Event>, gap: int) {
    forall i, j :: 0 <= i < j < |log| && log[i].Plan? && log[j].Plan? && !log[j].forced ==>
      log[j].gate.ms >= log[i].spent.ms + gap
  }

  predicate Forward(k: Clocks) {
    k.gate.ms <= k.planSpent.ms <= k.finish.ms
  }

  predicate Passed(clock: Option<int>, w: World) {
    Forward(w.clocks) && (clock.Some? ==> clock.value <= w.clocks.gate.ms)
  }

  /** A planner call already made is behind the clock, and behind the cycle end whose cooldown is running. */
  predicate Behind(e: Event, ended: Option<int>, cooldownMs: Option<int>, clock: Option<int>, gap: int) {
    e.Plan? ==>
      && clock.Some? && e.spent.ms <= clock.value
      && ended.Some? && e.spent.ms <= ended.value
      && cooldownMs.Some? && gap <= cooldownMs.value
  }

  ghost predicate PlansBehind(log: seq<Event>, ended: Option<int>, cooldownMs: Option<int>, clock: Option<int>, gap: int) {
    PlansSpaced(log, gap) && forall e :: e in log ==> Behind(e, ended, cooldownMs, clock, gap)
  }

  lemma {:induction false} PlanStep(
    log: seq<Event>, w: World, c: Counters, l: Limits, before: CycleMarks, after: CycleMarks, clock: Option<int>, gap: int)
    requires PlansBehind(log, before.ended, before.cooldownMs, clock, gap) && c.lastCycleEnded == before.ended && Passed(clock, w)
    requires gap <= SHORT_CYCLE_COOLDOWN_MS && gap <= l.cooldownMs
    requires
      var active := ActiveUnder(l, before.cooldownMs);
      Marked(MarkOf(c, active, w), w.clocks.finish, CooldownAfter(CycleEvents(c, l, active, w), l), before, after)
    ensures
      var events := CycleEvents(c, l, ActiveUnder(l, before.cooldownMs), w);
      PlansBehind(log + events, after.ended, after.cooldownMs, Some(w.clocks.finish.ms), gap)
  {
    var events := CycleEvents(c, l, ActiveUnder(l, before.cooldownMs), w);
    CycleDiscipline(c, l, ActiveUnder(l, before.cooldownMs), w);
    var ended, cooldownMs, endedAfter, cooldownAfter := before.ended, before.cooldownMs, after.ended, after.cooldownMs;
    forall e | e in log
      ensures Behind(e, endedAfter, cooldownAfter, Some(w.clocks.finish.ms), gap)
      ensures e.Plan? && events != [] && events[0].Plan? && !w.force ==> events[0].gate.ms >= e.spent.ms + gap
    {
      assert Behind(e, ended, cooldownMs, clock, gap);
    }
    Extend(log, events, gap);
    forall e | e in events
      ensures Behind(e, endedAfter, cooldownAfter, Some(w.clocks.finish.ms), gap)
    {
      assert ClockedBy(w, e);
    }
  }

  lemma {:induction false} Extend(log: seq<Event>, events: seq<Event>, gap: int)
    requires PlansSpaced(log, gap) && PlanThenAct(events)
    requires events != [] && events[0].Plan? && !events[0].forced ==>
               forall e :: e in log && e.Plan? ==> events[0].gate.ms >= e.spent.ms + gap
    ensures PlansSpaced(log + events, gap)
  {
    var all := log + events;
    forall i, j | 0 <= i < j < |all| && all[i].Plan? && all[j].Plan? && !all[j].forced
      ensures all[j].gate.ms >= all[i].spent.ms + gap
    {
      if j >= |log| {
        assert j == |log| && all[j] == events[0];
        assert all[i] in log;
      }
    }
  }

  /** The last draft on record. */
  function LastDraft(log: seq<Event>): (d: Option<Event>)
    ensures d.Some? ==> d.value.Draft?
  {
    if log == [] then None
    else if log[|log| - 1].Draft? then Some(log[|log| - 1])
    else LastDraft(log[..|log| - 1])
  }

  lemma {:induction false} LastDraftIn(log: seq<Event>)
    ensures LastDraft(log).Some? ==> LastDraft(log).value in log
  {
    if log != [] && !log[|log| - 1].Draft? {
      LastDraftIn(log[..|log| - 1]);
    }
  }

  /** An un-forced draft comes its cooldown or more after the last one, and for another change set. */
  predicate DraftFollows(last: Option<Event>, d: Event)
    requires last.Some? ==> last.value.Draft?
    requires d.Draft?
  {
    last.Some? && !d.forced ==>
      && d.gate.ms >= last.value.gate.ms + d.cooldownMs
      && (last.value.hash != "" ==> d.hash != last.value.hash && d.changes != last.value.changes)
  }

  ghost predicate DraftsSpaced(log: seq<Event>) {
    forall i :: 0 <= i < |log| && log[i].Draft? ==> DraftFollows(LastDraft(log[..i]), log[i])
  }

  /** A draft's hash is that of its change set. */
  predicate Hashed(rules: AutoCommit.Rules, e: Event) {
    e.Draft? ==> e.hash == rules.hash(Porcelain.Render(e.changes))
  }

  ghost predicate DraftsStamped(rules: AutoCommit.Rules, log: seq<Event>, at: Option<int>, hash: Option<string>) {
    && DraftsSpaced(log)
    && (forall e :: e in log ==> Hashed(rules, e))
    && var last := LastDraft(log); last.Some? ==> at == Some(last.value.gate.ms) && hash == Some(last.value.hash)
  }

  lemma {:induction false} SpacedOneMore(log: seq<Event>, e: Event)
    requires DraftsSpaced(log) && (e.Draft? ==> DraftFollows(LastDraft(log), e))
    ensures DraftsSpaced(log + [e])
    ensures LastDraft(log + [e]) == if e.Draft? then Some(e) else LastDraft(log)
  {
    var all := log + [e];
    assert all[..|log|] == log;
    forall i | 0 <= i < |all| && all[i].Draft?
      ensures DraftFollows(LastDraft(all[..i]), all[i])
    {
      if i < |log| {
        assert all[..i] == log[..i];
      }
    }
  }

  lemma {:induction false} SpacedAfterCycle(log: seq<Event>, events: seq<Event>)
    requires DraftsSpaced(log) && PlanThenAct(events)
    ensures DraftsSpaced(log + events) && LastDraft(log + events) == LastDraft(log)
  {
    if events == [] {
      assert log + events == log;
    } else {
      SpacedOneMore(log, events[0]);
      if |events| == 1 {
        assert events == [events[0]];
      } else {
        assert log + events == (log + [events[0]]) + [events[1]];
        SpacedOneMore(log + [events[0]], events[1]);
      }
    }
  }

  // ----- What ticks do, exactly ---------------------------------------------

  /** What the state holds between ticks. */
  datatype Page = Page(c: Counters, marks: CycleMarks, draftAt: Option<int>, hash: Option<string>)

  const Blank := Page(Empty, CycleMarks(None, None, 0), None, None)

  function PageOf(state: StateManager): Page
    reads state
  {
    Page(state.AsCounters(), state.Marks(), state.lastDraftAt, state.lastChangeHash)
  }

  predicate DraftsAt(rules: AutoCommit.Rules, a: AutoCommit.Attempt, p: Page) {
    AutoCommit.Drafts(p.c, p.draftAt, p.hash, rules, a)
  }

  function DraftLog(rules: AutoCommit.Rules, a: AutoCommit.Attempt, p: Page): seq<Event> {
    if DraftsAt(rules, a, p) then [AutoCommit.DraftEvent(rules, a)] else []
  }

  function DraftPage(rules: AutoCommit.Rules, a: AutoCommit.Attempt, p: Page): Page {
    if DraftsAt(rules, a, p) then
      Page(Spend(p.c, AutoCommit.DraftEvent(rules, a)), p.marks, Some(a.now.ms), Some(AutoCommit.ChangeHash(rules, a.repository.porcelain)))
    else p
  }

  function DreamLog(l: Limits, w: World, p: Page): seq<Event> {
    CycleEvents(p.c, l, ActiveUnder(l, p.marks.cooldownMs), w)
  }

  function DreamPage(l: Limits, w: World, p: Page): Page {
    var events := DreamLog(l, w, p);
    var marks := MarksAfter(MarkOf(p.c, ActiveUnder(l, p.marks.cooldownMs), w), w.clocks.finish, CooldownAfter(events, l), p.marks);
    p.(c := Run(Ledger(p.c), l, events).(lastCycleEnded := marks.ended), marks := marks)
  }

  /** A tick drafts first, then dreams, each on what the other left. */
  function TickRun(l: Limits, rules: AutoCommit.Rules, t: Tick, p: Page): (Page, seq<Event>) {
    var q := if t.draft.Some? then DraftPage(rules, t.draft.value, p) else p;
    var drafted := if t.draft.Some? then DraftLog(rules, t.draft.value, p) else [];
    if t.dream.Some? then (DreamPage(l, t.dream.value, q), drafted + DreamLog(l, t.dream.value, q)) else (q, drafted)
  }

  function DaemonRun(l: Limits, rules: AutoCommit.Rules, ticks: seq<Tick>): (Page, seq<Event>) {
    if ticks == [] then (Blank, [])
    else
      var (p, log) := DaemonRun(l, rules, ticks[..|ticks| - 1]);
      var (q, events) := TickRun(l, rules, ticks[|ticks| - 1], p);
      (q, log + events)
  }

  lemma {:induction false} DaemonRunSnoc(l: Limits, rules: AutoCommit.Rules, ticks: seq<Tick>, i: nat)
    requires i < |ticks|
    ensures
      var (p, log) := DaemonRun(l, rules, ticks[..i]);
      var (q, events) := TickRun(l, rules, ticks[i], p);
      DaemonRun(l, rules, ticks[..i + 1]) == (q, log + events)
  {
    assert ticks[..i + 1][..i] == ticks[..i];
  }

  /** A tick leaves neither part out: its draft, when one is due, comes first, and its cycle's events follow. */
  lemma {:induction false} TickDoesBoth(l: Limits, rules: AutoCommit.Rules, t: Tick, p: Page)
    ensures
      var (q, events) := TickRun(l, rules, t, p);
      && (t.draft.Some? && DraftsAt(rules, t.draft.value, p) ==> events != [] && events[0] == AutoCommit.DraftEvent(rules, t.draft.value))
      && (t.draft.Some? && DraftsAt(rules, t.draft.value, p) ==> q.draftAt == Some(t.draft.value.now.ms))
      && (t.dream.Some? && t.draft.None? ==> events == CycleEvents(p.c, l, ActiveUnder(l, p.marks.cooldownMs), t.dream.value))
      && (t.dream.Some? ==>
            exists c :: Ledger(c).recentActions == Ledger(p.c).recentActions
              && EndsWithEvents(events, CycleEvents(c, l, ActiveUnder(l, p.marks.cooldownMs), t.dream.value)))
  {
    var c := if t.draft.Some? then DraftPage(rules, t.draft.value, p).c else p.c;
    assert c.recentActions == p.c.recentActions;
    var drafted := if t.draft.Some? then DraftLog(rules, t.draft.value, p) else [];
    if t.dream.Some? {
      var cycle := CycleEvents(c, l, ActiveUnder(l, p.marks.cooldownMs), t.dream.value);
      assert (drafted + cycle)[|drafted|..] == cycle;
      assert TickRun(l, rules, t, p).1 == drafted + cycle;
      assert EndsWithEvents(drafted + cycle, cycle);
      assert t.draft.None? ==> drafted + cycle == cycle;
    }
  }

  predicate EndsWithEvents(log: seq<Event>, events: seq<Event>) {
    |events| <= |log| && log[|log| - |events|..] == events
  }

  lemma {:induction false} SameButMarks(c: Counters, after: Counters, events: seq<Event>, l: Limits)
    requires Ledger(after) == Run(Ledger(c), l, events) && !after.cycleActive
    ensures after == Run(Ledger(c), l, events).(lastCycleEnded := after.lastCycleEnded)
  {
    assert Ledger(after).(lastCycleEnded := after.lastCycleEnded) == after;
  }

  // ----- One tick -----------------------------------------------------------

  /** What has been spent and charged so far: the counters are exactly its run, all of it in order. */
  ghost predicate Accounted(c: Counters, l: Limits, log: seq<Event>) {
    Ledger(c) == Run(Empty, l, log) && AllInOrder(log) && AllLengthen(log)
  }

  lemma {:induction false} DraftAccounted(c: Counters, l: Limits, e: Event, log: seq<Event>)
    requires Accounted(c, l, log) && e.Draft? && InOrder(e) && Permitted(c, l, e)
    ensures Accounted(Spend(c, e), l, log + [e])
  {
    LedgerSteps(c, l, e);
    assert (log + [e])[..|log|] == log;
  }

  lemma {:induction false} DraftKeepsPlans(
    log: seq<Event>, e: Event, ended: Option<int>, cooldownMs: Option<int>, clock: Option<int>, gap: int)
    requires PlansBehind(log, ended, cooldownMs, clock, gap) && e.Draft?
    ensures PlansBehind(log + [e], ended, cooldownMs, clock, gap)
  {
  }

  method DraftTick(
    state: StateManager, rules: AutoCommit.Rules, a: AutoCommit.Attempt, log: seq<Event>, ghost clock: Option<int>, ghost gap: int)
    returns (newLog: seq<Event>)
    requires Accounted(state.AsCounters(), a.limits, log) && DraftsStamped(rules, log, state.lastDraftAt, state.lastChangeHash)
    requires Dated(Tick(Some(a), None))
    modifies state`tokensToday, state`lastTokenDate, state`bySource, state`maxCallTokens, state`maxCallTokensAt
    modifies state`lastDraftAt, state`lastChangeHash
    ensures Accounted(state.AsCounters(), a.limits, newLog)
    ensures DraftsStamped(rules, newLog, state.lastDraftAt, state.lastChangeHash)
    ensures newLog == log + DraftLog(rules, a, old(PageOf(state))) && PageOf(state) == DraftPage(rules, a, old(PageOf(state)))
    ensures PlansBehind(log, state.lastCycleEnded, state.lastCycleCooldownMs, clock, gap) ==>
              PlansBehind(newLog, state.lastCycleEnded, state.lastCycleCooldownMs, clock, gap)
  {
    ghost var before := state.AsCounters();
    var r, events := AutoCommit.Run(state, rules, a);
    newLog := log + events;
    if r.Composed? {
      ghost var e := AutoCommit.DraftEvent(rules, a);
      DraftAccounted(before, a.limits, e, log);
      LastDraftIn(log);
      SpacedOneMore(log, e);
      if PlansBehind(log, state.lastCycleEnded, state.lastCycleCooldownMs, clock, gap) {
        DraftKeepsPlans(log, e, state.lastCycleEnded, state.lastCycleCooldownMs, clock, gap);
      }
    } else {
      assert newLog == log;
    }
  }

  lemma {:induction false} CycleAccounted(c: Counters, l: Limits, w: World, active: Limits, log: seq<Event>, after: Counters)
    requires Accounted(c, l, log) && Dated(Tick(None, Some(w))) && Charter.Tightens(w.roster)
    requires Ledger(after) == Run(Ledger(c), l, CycleEvents(c, l, active, w))
    ensures Accounted(after, l, log + CycleEvents(c, l, active, w)) && PlanThenAct(CycleEvents(c, l, active, w))
  {
    var events := CycleEvents(c, l, active, w);
    CycleDiscipline(c, l, active, w);
    CycleEventsInOrder(w, events);
    RunConcat(Empty, l, log, events);
  }

  lemma {:induction false} SteadyLimits(b: Budgets, applyShipped: bool, l: Limits)
    requires SameLimits(b, l)
    ensures Applied(b, applyShipped, l) == l
  {
  }

  method DreamTick(
    state: StateManager, ghost rules: AutoCommit.Rules, w: World, ghost l: Limits, log: seq<Event>, ghost clock: Option<int>, ghost gap: int)
    returns (newLog: seq<Event>)
    requires Accounted(state.AsCounters(), l, log) && state.limits == l && !state.cycleActive
    requires DraftsStamped(rules, log, state.lastDraftAt, state.lastChangeHash)
    requires Steady(Tick(None, Some(w)), l) && Dated(Tick(None, Some(w)))
    requires gap <= SHORT_CYCLE_COOLDOWN_MS && gap <= l.cooldownMs
    modifies state
    ensures Accounted(state.AsCounters(), l, newLog) && state.limits == l && !state.cycleActive
    ensures newLog == log + DreamLog(l, w, old(PageOf(state))) && PageOf(state) == DreamPage(l, w, old(PageOf(state)))
    ensures DraftsStamped(rules, newLog, state.lastDraftAt, state.lastChangeHash)
    ensures PlansBehind(log, old(state.lastCycleEnded), old(state.lastCycleCooldownMs), clock, gap) && Passed(clock, w) ==>
              PlansBehind(newLog, state.lastCycleEnded, state.lastCycleCooldownMs, Some(w.clocks.finish.ms), gap)
  {
    ghost var before, marks := state.AsCounters(), state.Marks();
    SteadyLimits(w.budgets, w.applyShipped, l);
    var result, events := RunDreamCycle(state, w);
    CycleAccounted(before, l, w, ActiveUnder(l, marks.cooldownMs), log, state.AsCounters());
    newLog := log + events;
    SameButMarks(before, state.AsCounters(), events, l);
    SpacedAfterCycle(log, events);
    if PlansBehind(log, marks.ended, marks.cooldownMs, clock, gap) && Passed(clock, w) {
      PlanStep(log, w, before, l, marks, state.Marks(), clock, gap);
    }
  }

  // ----- Whole runs ---------------------------------------------------------

  /** The clock never goes back from one cycle to the next, nor within one. */
  ghost predicate Monotone(ticks: seq<Tick>) {
    && (forall i :: 0 <= i < |ticks| && ticks[i].dream.Some? ==> Forward(ticks[i].dream.value.clocks))
    && (forall i, j :: 0 <= i < j < |ticks| && ticks[i].dream.Some? && ticks[j].dream.Some? ==>
          ticks[i].dream.value.clocks.finish.ms <= ticks[j].dream.value.clocks.gate.ms)
  }

  function ClockAfter(t: Tick, clock: Option<int>): Option<int> {
    if t.dream.Some? then Some(t.dream.value.clocks.finish.ms) else clock
  }

  method OneTick(
    state: StateManager, ghost l: Limits, rules: AutoCommit.Rules, t: Tick, log: seq<Event>, ghost clock: Option<int>, ghost gap: int)
    returns (newLog: seq<Event>)
    requires Steady(t, l) && Dated(t) && state.limits == l && !state.cycleActive && Accounted(state.AsCounters(), l, log)
    requires DraftsStamped(rules, log, state.lastDraftAt, state.lastChangeHash)
    requires gap <= SHORT_CYCLE_COOLDOWN_MS && gap <= l.cooldownMs
    modifies state
    ensures state.limits == l && !state.cycleActive && Accounted(state.AsCounters(), l, newLog)
    ensures (PageOf(state), newLog) ==
              (var (q, events) := TickRun(l, rules, t, old(PageOf(state))); (q, log + events))
    ensures DraftsStamped(rules, newLog, state.lastDraftAt, state.lastChangeHash)
    ensures && PlansBehind(log, old(state.lastCycleEnded), old(state.lastCycleCooldownMs), clock, gap)
            && (t.dream.Some? ==> Passed(clock, t.dream.value))
            ==> PlansBehind(newLog, state.lastCycleEnded, state.lastCycleCooldownMs, ClockAfter(t, clock), gap)
  {
    newLog := log;
    ghost var drafted: seq<Event> := [];
    assert newLog == log + drafted;
    if t.draft.Some? {
      drafted := DraftLog(rules, t.draft.value, PageOf(state));
      newLog := DraftTick(state, rules, t.draft.value, newLog, clock, gap);
    }
    assert newLog == log + drafted;
    if t.dream.Some? {
      Reassociate(log, drafted, DreamLog(l, t.dream.value, PageOf(state)));
      newLog := DreamTick(state, rules, t.dream.value, l, newLog, clock, gap);
    }
  }

  /**
   * Every run of the daemon from a fresh state, with its limits fixed, does exactly what its ticks
   * ask: `log` is all it spent and charged, and the counters are exactly that; no cycle stays marked
   * active; drafts are spaced; and if the clock never goes back, un-forced planner calls are spaced by the shorter cooldown.
   */
  method RunDaemon(l: Limits, rules: AutoCommit.Rules, ticks: seq<Tick>)
    returns (state: StateManager, log: seq<Event>)
    requires forall t :: t in ticks ==> Steady(t, l) && Dated(t)
    ensures fresh(state) && !state.cycleActive
    ensures (PageOf(state), log) == DaemonRun(l, rules, ticks)
    ensures Accounted(state.AsCounters(), l, log)
    ensures DraftsSpaced(log) && forall e :: e in log ==> Hashed(rules, e)
    ensures Monotone(ticks) ==> PlansSpaced(log, Shortest(SHORT_CYCLE_COOLDOWN_MS, l.cooldownMs))
  {
    state := new StateManager(l);
    log := [];
    ghost var gap := Shortest(SHORT_CYCLE_COOLDOWN_MS, l.cooldownMs);
    ghost var clock: Option<int> := None;
    for i := 0 to |ticks|
      invariant fresh(state) && !state.cycleActive && state.limits == l
      invariant (PageOf(state), log) == DaemonRun(l, rules, ticks[..i])
      invariant Accounted(state.AsCounters(), l, log)
      invariant DraftsStamped(rules, log, state.lastDraftAt, state.lastChangeHash)
      invariant Monotone(ticks) ==> forall j :: i <= j < |ticks| && ticks[j].dream.Some? ==> Passed(clock, ticks[j].dream.value)
      invariant Monotone(ticks) ==> PlansBehind(log, state.lastCycleEnded, state.lastCycleCooldownMs, clock, gap)
    {
      assert ticks[i] in ticks;
      DaemonRunSnoc(l, rules, ticks, i);
      log := OneTick(state, l, rules, ticks[i], log, clock, gap);
      clock := ClockAfter(ticks[i], clock);
    }
    assert ticks[..|ticks|] == ticks;
  }

  /** What an accounted run guarantees: the caps, the token ceiling but for one call, and every class's cooldown floor. */
  lemma {:induction false} AccountedIsSafe(c: Counters, l: Limits, log: seq<Event>, i: nat, j: nat)
    requires Accounted(c, l, log)
    ensures c.actionsToday <= l.dailyCap && c.actionsThisWeek <= l.weeklyCap
    ensures c.tokensToday == 0 || c.tokensToday < l.ceiling + c.maxCallTokens
    ensures
      && i < j < |log| && Charged(Empty, l, log, i) && Charged(Empty, l, log, j) && log[i].key == log[j].key != ""
      ==> log[j].gate.ms >= log[i].charge.value.ms + Floor(ClassOf(log[i].key))
  {
    CapsHoldOverRuns(l, log);
    OvershootIsOneCall(l, log);
    if i < j < |log| && Charged(Empty, l, log, i) && Charged(Empty, l, log, j) && log[i].key == log[j].key != "" {
      FloorsHoldOverRuns(Empty, l, log, i, j);
    }
  }
}
