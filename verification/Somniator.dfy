/**
 * One dream cycle: enablement, gates, an optional planner call, an optional action.
 * The planner, the agent, the runners and every reading of the clock are inputs.
 */
module Somniator {
  import opened Text
  import opened Catalog
  import opened Budget
  import opened BudgetRuns
  import opened StateManager
  import Charter

  datatype RawPick = RawPick(action: string, reason: string)

  datatype PlannerOutcome = PlannerThrew | PlannerReplied(usage: Option<Usage>, pick: Option<RawPick>)

  datatype AgentOutcome = AgentThrew(spawnStarted: bool) | AgentFinished(ok: bool, usageTokens: Option<nat>)

  datatype RunnerOutcome = NoRunner | RunnerFinished(ok: bool)

  /** Readings of the clock, in the order the cycle takes them. */
  datatype Clocks = Clocks(
    gate: Now, snapshot: Now, start: Now, plan: Now, planSpent: Now,
    actionGate: Now, agentSpent: Now, charge: Now, finish: Now)

  /** What one cycle reads from outside: the reloaded configuration, its options, and its calls' outcomes. */
  datatype World = World(
    dreamsEnabled: bool, dailyActionCap: nat, dailyTokenCeiling: nat,
    budgets: Budgets, applyShipped: bool, roster: Charter.Roster,
    force: bool, forceAction: Option<string>,
    planner: PlannerOutcome, agent: AgentOutcome, runner: RunnerOutcome, clocks: Clocks)

  datatype Mark = End | EndOnly | Unmarked

  const SKIP: string := "skip"

  /** The planner's pick, when it names an allowed action and gives a reason. */
  function ParsePick(pick: Option<RawPick>, allowed: seq<string>): (r: Option<string>)
    ensures r.Some? ==> r.value in allowed
  {
    if pick.None? || Blank(pick.value.reason) || Trim(pick.value.action) !in allowed then None
    else Some(Trim(pick.value.action))
  }

  function ForcedKey(w: World): Option<string> {
    if w.forceAction.Some? && w.forceAction.value != "" then Some(Trim(w.forceAction.value)) else None
  }

  /** A pick is the action the planner named, white space aside; it counts iff that is allowed and a reason is given. */
  lemma {:induction false} PickIs(a: string, key: string, b: string, reason: string, allowed: seq<string>)
    requires Blank(a) && Blank(b) && Trimmed(key)
    ensures ParsePick(Some(RawPick(a + key + b, reason)), allowed) ==
              if key in allowed && !Blank(reason) then Some(key) else None
    ensures ParsePick(None, allowed) == None
  {
    TrimAround(a, key, b);
  }

  /** A forced key is the one given, white space aside; an empty one forces nothing. */
  lemma {:induction false} ForcedKeyIs(w: World, a: string, key: string, b: string)
    requires Blank(a) && Blank(b) && Trimmed(key) && key != ""
    ensures ForcedKey(w.(forceAction := Some(a + key + b))) == Some(key)
    ensures ForcedKey(w.(forceAction := None)) == ForcedKey(w.(forceAction := Some(""))) == None
  {
    TrimAround(a, key, b);
    assert |a + key + b| == |a| + |key| + |b|;
  }

  function TotalOnly(tokens: nat): Usage {
    Usage(Some(tokens), None, None, None, None, None)
  }

  /** The counters without the cycle's own marks, which no budget gate reads. */
  function Ledger(c: Counters): Counters {
    c.(lastCycleEnded := None, cycleActive := false)
  }

  /** Each event was allowed by its gate at its turn. */
  ghost predicate AllPermitted(c: Counters, l: Limits, es: seq<Event>) {
    forall i :: 0 <= i < |es| ==> Permitted(Run(c, l, es[..i]), l, es[i])
  }

  lemma {:induction false} LedgerPermits(c: Counters, l: Limits, e: Event)
    ensures Permitted(Ledger(c), l, e) == Permitted(c, l, e)
  {
    assert Spent(Ledger(c)) == Spent(c);
  }

  lemma {:induction false} LedgerSpends(c: Counters, e: Event)
    ensures Ledger(Spend(c, e)) == Spend(Ledger(c), e)
  {
    assert Spent(Ledger(c)) == Spent(c);
  }

  lemma {:induction false} LedgerCharges(c: Counters, e: Event)
    ensures Ledger(Charge(c, e)) == Charge(Ledger(c), e)
  {
  }

  lemma {:induction false} LedgerSteps(c: Counters, l: Limits, e: Event)
    requires Permitted(c, l, e)
    ensures Permitted(Ledger(c), l, e) && Ledger(Charge(Spend(c, e), e)) == Step(Ledger(c), l, e)
  {
    LedgerPermits(c, l, e);
    LedgerSpends(c, e);
    LedgerCharges(Spend(c, e), e);
  }

  // ----- What a cycle may do ------------------------------------------------

  /** The planner runs at most once and first; the action, if any, runs last. */
  predicate PlanThenAct(es: seq<Event>) {
    || es == []
    || (|es| == 1 && !es[0].Draft?)
    || (|es| == 2 && es[0].Plan? && es[1].Act?)
  }

  /** An action only runs enabled, admitted and on the roster; it is charged exactly when it started, and metered as reported. */
  predicate ActionAllowed(w: World, e: Event) {
    e.Act? ==>
      && w.dreamsEnabled && !w.roster.refuse && w.dailyActionCap > 0
      && Admitted(e.key) && e.key in w.roster.effective
      && e.overrides == w.roster.overrides
      && (e.charge.Some? <==> Begun(w, e.key))
      && (e.charge.None? ==> e.usage.None?)
      && Envelope(e.usage) == AgentTokens(w, e.key)
  }

  /** The action really started: its agent was spawned, or its runner exists and ran. */
  predicate Begun(w: World, key: string) {
    if key in FULL_AGENTIC then w.agent != AgentThrew(false) else w.runner != NoRunner
  }

  /** Tokens the action's agent reported. */
  function AgentTokens(w: World, key: string): nat {
    if key in FULL_AGENTIC && w.agent.AgentFinished? then OrZero(w.agent.usageTokens) else 0
  }

  /** Clock readings an event carries are the cycle's own. */
  predicate ClockedBy(w: World, e: Event) {
    if e.Plan? then
      && e.forced == w.force && e.spent == w.clocks.planSpent && e.reserve == w.clocks.plan && e.ceiling == w.dailyTokenCeiling
      && e.gate == if w.force then w.clocks.snapshot else w.clocks.gate
    else
      && e.Act? && e.gate == w.clocks.actionGate && e.spent == w.clocks.agentSpent
      && (e.charge.Some? ==> e.charge.value == w.clocks.charge)
  }

  /** Everything a cycle must find to get past its first gates. */
  predicate Admissible(c: Counters, active: Limits, w: World) {
    && w.dreamsEnabled && !w.roster.refuse && w.dailyActionCap > 0 && w.roster.effective != []
    && !OffRoster(w)
    && if w.force then
         && !CeilingReached(c, w.clocks.snapshot, active.ceiling)
         && RollDaily(c, w.clocks.snapshot).count < active.dailyCap
       else CanStartCycle(c, w.clocks.gate, active).reason.Ok?
  }

  /** The planner is called exactly when no key is forced and its reservation fits under the ceiling. */
  function Planned(c: Counters, w: World): seq<Event> {
    if ForcedKey(w).None? && Reserved(c, w.clocks.plan, w.dailyTokenCeiling)
    then [PlanEvent(w)] else []
  }

  /** The key to run: the forced one, else the planner's. */
  function Wanted(c: Counters, w: World): Option<string> {
    if ForcedKey(w).Some? then ForcedKey(w)
    else if Planned(c, w) != [] && w.planner.PlannerReplied? then ParsePick(w.planner.pick, w.roster.effective + [SKIP])
    else None
  }

  predicate Runnable(w: World, key: Option<string>) {
    key.Some? && key.value != SKIP && Admitted(key.value) && key.value in w.roster.effective
  }

  function Acted(c: Counters, l: Limits, w: World, key: Option<string>): seq<Event> {
    if Runnable(w, key) && Permitted(c, l, ActEvent(w, key.value)) then [ActEvent(w, key.value)] else []
  }

  function AfterPlan(c: Counters, w: World): Counters {
    if Planned(c, w) == [] then c else Spend(c, PlanEvent(w))
  }

  /** All a cycle does, past its first gates. */
  function DreamEvents(c: Counters, l: Limits, w: World): seq<Event> {
    Planned(c, w) + Acted(AfterPlan(c, w), l, w, Wanted(c, w))
  }

  function AfterDream(c: Counters, l: Limits, w: World): Counters {
    var planned := AfterPlan(c, w);
    var acted := Acted(planned, l, w, Wanted(c, w));
    if acted == [] then planned else Charge(Spend(planned, acted[0]), acted[0])
  }

  function CycleEvents(c: Counters, l: Limits, active: Limits, w: World): seq<Event> {
    if Admissible(c, active, w) then DreamEvents(c, l, w) else []
  }

  function AfterCycle(c: Counters, l: Limits, active: Limits, w: World): Counters {
    if Admissible(c, active, w) then Ledger(AfterDream(c, l, w)) else Ledger(c)
  }

  predicate WentWell(w: World, key: string) {
    if key in FULL_AGENTIC then w.agent.AgentFinished? && w.agent.ok else w.runner.RunnerFinished? && w.runner.ok
  }

  predicate Idles(w: World) {
    w.dreamsEnabled && !w.roster.refuse && (w.dailyActionCap == 0 || w.roster.effective == [])
  }

  /** Only a cycle past its first gates counts as a dream, and not when the planner's reservation failed. */
  function MarkOf(c: Counters, active: Limits, w: World): Mark {
    if Admissible(c, active, w) then DreamMark(c, w) else if Idles(w) then EndOnly else Unmarked
  }

  function DreamMark(c: Counters, w: World): Mark {
    if ForcedKey(w).None? && Planned(c, w) == [] then EndOnly else End
  }

  /** The action a cycle reports: the forced key, or an admitted pick; short of the gates, a forced key off the roster. */
  function Reported(c: Counters, active: Limits, w: World): Option<string> {
    if Admissible(c, active, w) then DreamReported(c, w)
    else if w.dreamsEnabled && !w.roster.refuse && !Idles(w) && OffRoster(w) then ForcedKey(w)
    else None
  }

  predicate OffRoster(w: World) {
    ForcedKey(w).Some? && Admitted(ForcedKey(w).value) && ForcedKey(w).value !in w.roster.effective
  }

  function DreamReported(c: Counters, w: World): Option<string> {
    var key := Wanted(c, w);
    if ForcedKey(w).Some? || (key.Some? && key.value != SKIP && Admitted(key.value)) then key else None
  }

  predicate StatusIs(w: World, events: seq<Event>, status: Status) {
    if events == [] then
      status == if Idles(w) then Idle else Refused
    else
      var last := events[|events| - 1];
      if last.Act? then status == if WentWell(w, last.key) then RanOk else Failed
      else
        var pick := if w.planner.PlannerReplied? then ParsePick(w.planner.pick, w.roster.effective + [SKIP]) else None;
        status == if pick.None? then Failed else if pick.value == SKIP then Skipped else Refused
  }

  /** How a cycle ends. */
  datatype Ending = Ending(status: Status, action: Option<string>, mark: Mark)

  method Finish(state: StateManager, ending: Ending, cooldownMs: Option<int>, now: Now) returns (result: Outcome)
    modifies state`cycleActive, state`lastCycleEnded, state`lastCycleCooldownMs, state`totalDreams, state`cycleHistory
    ensures result == Outcome(now.ms, ending.status, ending.action)
    ensures state.cycleHistory == Pushed(result, old(state.cycleHistory), HISTORY)
    ensures ending.mark == Unmarked ==> state.cycleActive == old(state.cycleActive)
    ensures ending.mark != Unmarked ==> !state.cycleActive
    ensures Marked(
      ending.mark, now, if cooldownMs.Some? then cooldownMs.value else state.limits.cooldownMs,
      old(state.Marks()), state.Marks())
  {
    if ending.mark != Unmarked {
      state.MarkCycleEnded(now, cooldownMs, ending.mark == End);
    }
    result := Outcome(now.ms, ending.status, ending.action);
    state.PushOutcome(result);
  }

  /** `End` and `EndOnly` stamp the end and the cooldown that starts; `End` also counts the dream. */
  function MarksAfter(mark: Mark, now: Now, cooldownMs: int, before: CycleMarks): CycleMarks {
    if mark == Unmarked then before
    else CycleMarks(Some(now.ms), Some(cooldownMs), before.totalDreams + if mark == End then 1 else 0)
  }

  predicate Marked(mark: Mark, now: Now, cooldownMs: int, before: CycleMarks, after: CycleMarks) {
    after == MarksAfter(mark, now, cooldownMs, before)
  }

  /** The cycle's gates up to its start: enablement, roster, cap, forced key, schedule and budgets. */
  method Admit(state: StateManager, w: World) returns (refusal: Option<Ending>)
    ensures refusal.None? <==> Admissible(state.AsCounters(), ActiveUnder(state.limits, state.lastCycleCooldownMs), w)
    ensures refusal.Some? ==>
              && StatusIs(w, [], refusal.value.status)
              && refusal.value.mark == MarkOf(state.AsCounters(), ActiveUnder(state.limits, state.lastCycleCooldownMs), w)
              && refusal.value.action == Reported(state.AsCounters(), ActiveUnder(state.limits, state.lastCycleCooldownMs), w)
  {
    if !w.dreamsEnabled || w.roster.refuse {
      return Some(Ending(Refused, None, Unmarked));
    }
    if w.dailyActionCap == 0 || w.roster.effective == [] {
      return Some(Ending(Idle, None, EndOnly));
    }
    var forced := ForcedKey(w);
    if forced.Some? && Admitted(forced.value) && forced.value !in w.roster.effective {
      return Some(Ending(Refused, forced, Unmarked));
    }
    if !w.force && !CanStartCycle(state.AsCounters(), w.clocks.gate, state.ActiveLimits()).reason.Ok? {
      return Some(Ending(Refused, None, Unmarked));
    }
    if w.force {
      if CeilingReached(state.AsCounters(), w.clocks.snapshot, state.limits.ceiling)
         || Remaining(state.limits.dailyCap, RollDaily(state.AsCounters(), w.clocks.snapshot).count) == 0 {
        return Some(Ending(Refused, None, Unmarked));
      }
    }
    return None;
  }

  /** The planner call: refused without its reservation, else one call whose spend is recorded. */
  method CallPlanner(state: StateManager, w: World) returns (called: bool, pick: Option<string>)
    requires ForcedKey(w).None?
    modifies state`tokensToday, state`lastTokenDate, state`bySource, state`maxCallTokens, state`maxCallTokensAt
    ensures called <==> Planned(old(state.AsCounters()), w) != []
    ensures pick == Wanted(old(state.AsCounters()), w)
    ensures state.AsCounters() == if called then Spend(old(state.AsCounters()), PlanEvent(w)) else old(state.AsCounters())
    ensures called && w.planner.PlannerReplied? ==>
              Rolled(state.AsCounters(), w.clocks.planSpent).tokensToday
              == Rolled(old(state.AsCounters()), w.clocks.planSpent).tokensToday + Envelope(w.planner.usage)
    ensures called <==> ForcedKey(w).None? && Rolled(old(state.AsCounters()), w.clocks.plan).tokensToday + PLANNER_RESERVE <= w.dailyTokenCeiling
  {
    if RollTokens(state.AsCounters(), w.clocks.plan).tokensToday + PLANNER_RESERVE > w.dailyTokenCeiling {
      return false, None;
    }
    match w.planner
    case PlannerThrew =>
      return true, None;
    case PlannerReplied(usage, raw) =>
      if usage.Some? {
        SpendIsExact(state.AsCounters(), usage, Some(TokenSource.Planner), w.clocks.planSpent);
        state.RecordUsage(usage, Some(TokenSource.Planner), w.clocks.planSpent);
      }
      return true, ParsePick(raw, w.roster.effective + [SKIP]);
  }

  function PlanEvent(w: World): Event {
    Plan(
      if w.force then w.clocks.snapshot else w.clocks.gate,
      if w.planner.PlannerReplied? then w.planner.usage else None,
      w.clocks.planSpent,
      w.force,
      w.clocks.plan,
      w.dailyTokenCeiling)
  }

  /** What running `key` amounts to, given how its agent or runner came out. */
  function ActEvent(w: World, key: string): Event {
    var agentic := key in FULL_AGENTIC;
    var usage :=
      if agentic && w.agent.AgentFinished? && w.agent.usageTokens.Some? && w.agent.usageTokens.value > 0
      then Some(TotalOnly(w.agent.usageTokens.value)) else None;
    var charged := if agentic then w.agent.AgentFinished? || w.agent.spawnStarted else w.runner.RunnerFinished?;
    Act(w.clocks.actionGate, usage, w.clocks.agentSpent, key, w.roster.overrides,
        if charged then Some(w.clocks.charge) else None)
  }

  /** What running `key` leaves in the counters: one charge if it began, none if not, and the agent's tokens. */
  ghost predicate ChargedFor(before: Counters, after: Counters, w: World, key: string) {
    && (Begun(w, key) ==>
          && key in after.recentActions && after.recentActions[key] == w.clocks.charge.ms
          && Rolled(after, w.clocks.charge).actionsToday == Rolled(before, w.clocks.charge).actionsToday + 1
          && Rolled(after, w.clocks.charge).actionsThisWeek
             == Rolled(before, w.clocks.charge).actionsThisWeek + if key in EXPENSIVE then 1 else 0)
    && (!Begun(w, key) ==>
          && after.recentActions == before.recentActions
          && after.actionsToday == before.actionsToday && after.lastActionDate == before.lastActionDate
          && after.actionsThisWeek == before.actionsThisWeek && after.lastActionWeek == before.lastActionWeek)
    && Rolled(after, w.clocks.agentSpent).tokensToday == Rolled(before, w.clocks.agentSpent).tokensToday + AgentTokens(w, key)
  }

  lemma {:induction false} ActCharges(c: Counters, w: World, key: string)
    requires key != ""
    ensures
      var e := ActEvent(w, key);
      ChargedFor(c, Charge(Spend(c, e), e), w, key)
  {
    var e := ActEvent(w, key);
    var spent := Spend(c, e);
    if e.usage.Some? {
      SpendIsExact(c, e.usage, Some(Agentic), w.clocks.agentSpent);
    }
    if e.charge.Some? {
      ChargeIsExact(spent, key, TierOf(key), w.clocks.charge);
    }
  }

  lemma {:induction false} AdmittedIsNamed(key: string)
    requires Admitted(key)
    ensures key != "" && key != SKIP
  {
    assert forall i :: 0 <= i < |ADMITTED| ==> |ADMITTED[i]| > 4;
  }

  /** Runs an action already allowed by its gate, and charges it. */
  method Execute(state: StateManager, w: World, key: string) returns (status: Status)
    requires Admitted(key)
    modifies state`tokensToday, state`lastTokenDate, state`bySource, state`maxCallTokens, state`maxCallTokensAt
    modifies state`actionsToday, state`lastActionDate, state`actionsThisWeek, state`lastActionWeek
    modifies state`recentActions, state`lastActionResults
    ensures state.AsCounters() == Charge(Spend(old(state.AsCounters()), ActEvent(w, key)), ActEvent(w, key))
    ensures ChargedFor(old(state.AsCounters()), state.AsCounters(), w, key)
    ensures status == if WentWell(w, key) then RanOk else Failed
    ensures state.lastActionResults ==
              if key !in FULL_AGENTIC && w.runner.NoRunner? then old(state.lastActionResults)
              else Pushed(ActionResult(key, WentWell(w, key)), old(state.lastActionResults), RESULTS)
  {
    AdmittedIsNamed(key);
    ActCharges(state.AsCounters(), w, key);
    if key in FULL_AGENTIC {
      if w.agent.AgentFinished? && w.agent.usageTokens.Some? && w.agent.usageTokens.value > 0 {
        state.RecordUsage(Some(TotalOnly(w.agent.usageTokens.value)), Some(Agentic), w.clocks.agentSpent);
      }
      if w.agent.AgentFinished? || w.agent.spawnStarted {
        state.RecordDreamAction(key, w.clocks.charge, TierOf(key));
      }
      var ok := w.agent.AgentFinished? && w.agent.ok;
      state.PushActionResult(key, ok);
      return if ok then RanOk else Failed;
    }
    if w.runner.NoRunner? {
      return Failed;
    }
    state.RecordDreamAction(key, w.clocks.charge, TierOf(key));
    state.PushActionResult(key, w.runner.ok);
    return if w.runner.ok then RanOk else Failed;
  }

  /** Chooses the action: the forced key, or the planner's pick. */
  method Choose(state: StateManager, w: World) returns (ending: Option<Ending>, key: string, events: seq<Event>)
    modifies state`tokensToday, state`lastTokenDate, state`bySource, state`maxCallTokens, state`maxCallTokensAt
    ensures events == Planned(old(state.AsCounters()), w)
    ensures state.AsCounters() == AfterPlan(old(state.AsCounters()), w)
    ensures ending.None? <==> Runnable(w, Wanted(old(state.AsCounters()), w))
    ensures ending.None? ==> Wanted(old(state.AsCounters()), w) == Some(key)
    ensures ending.Some? ==>
              && ending.value.mark == DreamMark(old(state.AsCounters()), w)
              && (!OffRoster(w) ==> ending.value.action == DreamReported(old(state.AsCounters()), w))
    ensures ending.Some? && w.dailyActionCap > 0 && w.roster.effective != [] ==> StatusIs(w, events, ending.value.status)
  {
    events := [];
    var forced := ForcedKey(w);
    if forced.Some? {
      key := forced.value;
      if !Admitted(key) {
        return Some(Ending(Refused, forced, End)), key, [];
      }
    } else {
      var called, pick := CallPlanner(state, w);
      if !called {
        return Some(Ending(Refused, None, EndOnly)), "", [];
      }
      events := [PlanEvent(w)];
      if pick.None? {
        return Some(Ending(Failed, None, End)), "", events;
      }
      key := pick.value;
    }
    if key == SKIP {
      return Some(Ending(Skipped, None, End)), key, events;
    }
    if !Admitted(key) {
      return Some(Ending(Refused, None, End)), key, events;
    }
    if key !in w.roster.effective {
      return Some(Ending(Refused, Some(key), End)), key, events;
    }
    return None, key, events;
  }

  /** Gates the chosen action and, if allowed, runs it. */
  method RunChosen(state: StateManager, w: World, key: string) returns (status: Status, acted: seq<Event>)
    requires state.overrides == w.roster.overrides && Runnable(w, Some(key))
    modifies state`tokensToday, state`lastTokenDate, state`bySource, state`maxCallTokens, state`maxCallTokensAt
    modifies state`actionsToday, state`lastActionDate, state`actionsThisWeek, state`lastActionWeek
    modifies state`recentActions, state`lastActionResults
    ensures acted == Acted(old(state.AsCounters()), state.limits, w, Some(key))
    ensures state.AsCounters() == if acted == [] then old(state.AsCounters()) else Charge(Spend(old(state.AsCounters()), acted[0]), acted[0])
    ensures status == if acted == [] then Refused else if WentWell(w, key) then RanOk else Failed
  {
    var gate := CanRunAction(state.AsCounters(), key, TierOf(key), ClassOf(key), w.clocks.actionGate,
                             state.limits, state.overrides);
    if !gate.Ok? {
      return Refused, [];
    }
    status := Execute(state, w, key);
    acted := [ActEvent(w, key)];
  }

  /** Chooses, gates and runs the action of an admitted cycle. */
  method Dream(state: StateManager, w: World) returns (ending: Ending, cooldownMs: Option<int>, events: seq<Event>)
    requires state.overrides == w.roster.overrides
    requires w.dailyActionCap > 0 && w.roster.effective != [] && !OffRoster(w)
    modifies state`tokensToday, state`lastTokenDate, state`bySource, state`maxCallTokens, state`maxCallTokensAt
    modifies state`actionsToday, state`lastActionDate, state`actionsThisWeek, state`lastActionWeek
    modifies state`recentActions, state`lastActionResults
    ensures events == DreamEvents(old(state.AsCounters()), state.limits, w)
    ensures state.AsCounters() == AfterDream(old(state.AsCounters()), state.limits, w)
    ensures StatusIs(w, events, ending.status) && ending.mark == DreamMark(old(state.AsCounters()), w)
    ensures ending.action == DreamReported(old(state.AsCounters()), w)
    ensures cooldownMs == if events != [] && events[|events| - 1].Act? then None else Some(SHORT_CYCLE_COOLDOWN_MS)
  {
    var early, key, chosen := Choose(state, w);
    events := chosen;
    if early.Some? {
      return early.value, Some(SHORT_CYCLE_COOLDOWN_MS), events;
    }
    var status, acted := RunChosen(state, w, key);
    events := events + acted;
    return Ending(status, Some(key), End), if acted == [] then Some(SHORT_CYCLE_COOLDOWN_MS) else None, events;
  }

  /** A cycle past its first gates, marked active while it runs. */
  method RunAdmitted(state: StateManager, w: World) returns (result: Outcome, events: seq<Event>)
    requires state.overrides == w.roster.overrides
    requires w.dailyActionCap > 0 && w.roster.effective != [] && !OffRoster(w)
    modifies state`tokensToday, state`lastTokenDate, state`bySource, state`maxCallTokens, state`maxCallTokensAt
    modifies state`actionsToday, state`lastActionDate, state`actionsThisWeek, state`lastActionWeek
    modifies state`recentActions, state`lastActionResults, state`cycleStarted
    modifies state`cycleActive, state`lastCycleEnded, state`lastCycleCooldownMs, state`totalDreams, state`cycleHistory
    ensures events == DreamEvents(old(state.AsCounters()), state.limits, w)
    ensures Ledger(state.AsCounters()) == Ledger(AfterDream(old(state.AsCounters()), state.limits, w))
    ensures StatusIs(w, events, result.status) && result.at == w.clocks.finish.ms
    ensures result.action == DreamReported(old(state.AsCounters()), w)
    ensures state.cycleHistory == Pushed(result, old(state.cycleHistory), HISTORY)
    ensures !state.cycleActive
    ensures Marked(DreamMark(old(state.AsCounters()), w), w.clocks.finish,
                   CooldownAfter(events, state.limits), old(state.Marks()), state.Marks())
  {
    ghost var before := state.AsCounters();
    state.MarkCycleStarted(w.clocks.start);
    Started(before, state.AsCounters(), state.limits, w);
    var ending, cooldownMs, done := Dream(state, w);
    events := done;
    ghost var after := state.AsCounters();
    result := Finish(state, ending, cooldownMs, w.clocks.finish);
    assert Ledger(state.AsCounters()) == Ledger(after);
  }

  /** A cycle under the limits in force, from its first gate to its end. */
  method Cycle(state: StateManager, w: World) returns (result: Outcome, events: seq<Event>)
    requires state.overrides == w.roster.overrides
    modifies state`tokensToday, state`lastTokenDate, state`bySource, state`maxCallTokens, state`maxCallTokensAt
    modifies state`actionsToday, state`lastActionDate, state`actionsThisWeek, state`lastActionWeek
    modifies state`recentActions, state`lastActionResults, state`cycleStarted
    modifies state`cycleActive, state`lastCycleEnded, state`lastCycleCooldownMs, state`totalDreams, state`cycleHistory
    ensures events == CycleEvents(old(state.AsCounters()), state.limits, ActiveUnder(state.limits, old(state.lastCycleCooldownMs)), w)
    ensures Ledger(state.AsCounters()) == Run(Ledger(old(state.AsCounters())), state.limits, events)
    ensures StatusIs(w, events, result.status) && result.at == w.clocks.finish.ms
    ensures result.action == Reported(old(state.AsCounters()), ActiveUnder(state.limits, old(state.lastCycleCooldownMs)), w)
    ensures state.cycleHistory == Pushed(result, old(state.cycleHistory), HISTORY)
    ensures !old(state.cycleActive) ==> !state.cycleActive
    ensures Marked(MarkOf(old(state.AsCounters()), ActiveUnder(state.limits, old(state.lastCycleCooldownMs)), w), w.clocks.finish,
                   CooldownAfter(events, state.limits), old(state.Marks()), state.Marks())
  {
    CycleIsRun(state.AsCounters(), state.limits, ActiveUnder(state.limits, state.lastCycleCooldownMs), w);
    var refusal := Admit(state, w);
    if refusal.Some? {
      events := [];
      result := Finish(state, refusal.value, Some(SHORT_CYCLE_COOLDOWN_MS), w.clocks.finish);
      return;
    }
    result, events := RunAdmitted(state, w);
  }

  /** A cycle past its first gates does not read the cycle's own marks. */
  lemma {:induction false} DreamOnLedger(c: Counters, l: Limits, w: World)
    ensures DreamEvents(Ledger(c), l, w) == DreamEvents(c, l, w)
    ensures AfterDream(Ledger(c), l, w) == Ledger(AfterDream(c, l, w))
  {
    PlanOnLedger(c, w);
    var planned, key := AfterPlan(c, w), Wanted(c, w);
    if Runnable(w, key) {
      var e := ActEvent(w, key.value);
      LedgerPermits(planned, l, e);
      if Permitted(planned, l, e) {
        LedgerSteps(planned, l, e);
      }
    }
  }

  lemma {:induction false} Started(c: Counters, started: Counters, l: Limits, w: World)
    requires started == c.(cycleActive := true)
    ensures DreamEvents(started, l, w) == DreamEvents(c, l, w)
    ensures Ledger(AfterDream(started, l, w)) == Ledger(AfterDream(c, l, w))
    ensures DreamMark(started, w) == DreamMark(c, w) && DreamReported(started, w) == DreamReported(c, w)
  {
    assert Ledger(started) == Ledger(c);
    DreamOnLedger(c, l, w);
    DreamOnLedger(started, l, w);
    PlanOnLedger(c, w);
    PlanOnLedger(started, w);
  }

  lemma {:induction false} PlanOnLedger(c: Counters, w: World)
    ensures Planned(Ledger(c), w) == Planned(c, w) && Wanted(Ledger(c), w) == Wanted(c, w)
    ensures AfterPlan(Ledger(c), w) == Ledger(AfterPlan(c, w))
  {
    assert Spent(Ledger(c)) == Spent(c);
    LedgerSpends(c, PlanEvent(w));
  }

  /** A cycle that ran an action takes the full cooldown, any other the short one. */
  function CooldownAfter(events: seq<Event>, l: Limits): int {
    if events != [] && events[|events| - 1].Act? then l.cooldownMs else SHORT_CYCLE_COOLDOWN_MS
  }

  /** One cycle, on every path that does not throw. */
  method RunDreamCycle(state: StateManager, w: World) returns (result: Outcome, events: seq<Event>)
    modifies state
    ensures state.limits == Applied(w.budgets, w.applyShipped, old(state.limits))
    ensures state.overrides == w.roster.overrides
    ensures events == CycleEvents(old(state.AsCounters()), state.limits, ActiveUnder(state.limits, old(state.lastCycleCooldownMs)), w)
    ensures Ledger(state.AsCounters()) == Run(Ledger(old(state.AsCounters())), state.limits, events)
    ensures StatusIs(w, events, result.status) && result.at == w.clocks.finish.ms
    ensures result.action == Reported(old(state.AsCounters()), ActiveUnder(state.limits, old(state.lastCycleCooldownMs)), w)
    ensures state.cycleHistory == Pushed(result, old(state.cycleHistory), HISTORY)
    ensures !old(state.cycleActive) ==> !state.cycleActive
    ensures state.lastDraftAt == old(state.lastDraftAt) && state.lastChangeHash == old(state.lastChangeHash)
    ensures Marked(MarkOf(old(state.AsCounters()), ActiveUnder(state.limits, old(state.lastCycleCooldownMs)), w), w.clocks.finish,
                   CooldownAfter(events, state.limits), old(state.Marks()), state.Marks())
  {
    ghost var before := state.AsCounters();
    state.ApplyCharter(w.budgets, w.roster.overrides, w.applyShipped);
    assert state.AsCounters() == before;
    result, events := Cycle(state, w);
  }

  function ActiveUnder(l: Limits, lastCooldownMs: Option<int>): Limits {
    if lastCooldownMs.Some? then l.(cooldownMs := lastCooldownMs.value) else l
  }

  // ----- What every cycle keeps ---------------------------------------------

  lemma {:induction false} AdmissiblePlans(c: Counters, l: Limits, active: Limits, w: World)
    requires Admissible(c, active, w) && active == l.(cooldownMs := active.cooldownMs)
    ensures Planned(c, w) != [] ==> Permitted(c, l, PlanEvent(w))
  {
  }

  /** What a cycle spends and charges is a run of gated events: each is allowed by its gate at its turn. */
  lemma {:induction false} CycleIsRun(c: Counters, l: Limits, active: Limits, w: World)
    requires active == l.(cooldownMs := active.cooldownMs)
    ensures
      var events := CycleEvents(c, l, active, w);
      && AllPermitted(Ledger(c), l, events)
      && Run(Ledger(c), l, events) == AfterCycle(c, l, active, w)
  {
    if Admissible(c, active, w) {
      AdmissiblePlans(c, l, active, w);
      var planned, middle := Planned(c, w), AfterPlan(c, w);
      PlanIsRun(c, l, w);
      var acted := Acted(middle, l, w, Wanted(c, w));
      if acted == [] {
        assert DreamEvents(c, l, w) == planned;
      } else {
        var e := acted[0];
        assert DreamEvents(c, l, w) == planned + [e];
        LedgerSteps(middle, l, e);
        AnotherEvent(Ledger(c), l, planned, e);
      }
    }
  }

  lemma {:induction false} PlanIsRun(c: Counters, l: Limits, w: World)
    requires Planned(c, w) != [] ==> Permitted(c, l, PlanEvent(w))
    ensures AllPermitted(Ledger(c), l, Planned(c, w)) && Run(Ledger(c), l, Planned(c, w)) == Ledger(AfterPlan(c, w))
  {
    if Planned(c, w) != [] {
      LedgerSteps(c, l, PlanEvent(w));
      OneEvent(Ledger(c), l, PlanEvent(w));
    }
  }

  /** What any planner call or action of a cycle presupposes, forced or not. */
  predicate Warranted(c: Counters, active: Limits, w: World) {
    var now := if w.force then w.clocks.snapshot else w.clocks.gate;
    && w.dreamsEnabled && !w.roster.refuse && w.dailyActionCap > 0 && w.roster.effective != []
    && Rolled(c, now).tokensToday < active.ceiling && Rolled(c, now).actionsToday < active.dailyCap
    && (!w.force && c.lastCycleEnded.Some? ==> now.ms >= c.lastCycleEnded.value + active.cooldownMs)
  }

  /**
   * At most one planner call, at most one action; either only when dreams are enabled, the roster is
   * valid and not empty and the budgets have room, forced or not, and un-forced only once the last
   * cycle's cooldown has passed; an action only when its key is admitted and on the roster, and
   * charged exactly when it started.
   */
  lemma {:induction false} CycleDiscipline(c: Counters, l: Limits, active: Limits, w: World)
    ensures
      var events := CycleEvents(c, l, active, w);
      && PlanThenAct(events)
      && (events != [] ==> Warranted(c, active, w))
      && (forall e :: e in events ==> ActionAllowed(w, e) && ClockedBy(w, e))
      && (events != [] && events[0].Plan? && !w.force ==>
            CycleCooldownElapsed(c.lastCycleEnded, w.clocks.gate.ms, active.cooldownMs))
  {
    var events := CycleEvents(c, l, active, w);
    if Admissible(c, active, w) {
      CycleAllowedIff(c, w.clocks.gate, active);
      var key := Wanted(c, w);
      if Acted(AfterPlan(c, w), l, w, key) != [] {
        ActIsAllowed(w, key.value);
      }
    }
  }

  /** And it does happen: a warranted cycle with no forced key and its reservation free calls the planner. */
  lemma {:induction false} WarrantedCyclePlans(c: Counters, l: Limits, active: Limits, w: World)
    requires Warranted(c, active, w) && ForcedKey(w).None?
    requires Rolled(c, w.clocks.plan).tokensToday + PLANNER_RESERVE <= w.dailyTokenCeiling
    ensures
      var events := CycleEvents(c, l, active, w);
      events != [] && events[0].Plan? && (w.planner.PlannerReplied? ==> events[0].usage == w.planner.usage)
  {
    CycleAllowedIff(c, w.clocks.gate, active);
  }

  /** The planner's pick is run if it is on the roster and its gate, after the planner's spend, allows it. */
  lemma {:induction false} PickedActionRuns(c: Counters, l: Limits, active: Limits, w: World, key: string)
    requires Warranted(c, active, w) && ForcedKey(w).None?
    requires Rolled(c, w.clocks.plan).tokensToday + PLANNER_RESERVE <= w.dailyTokenCeiling
    requires w.planner.PlannerReplied? && w.planner.pick.Some?
    requires Trim(w.planner.pick.value.action) == key && !Blank(w.planner.pick.value.reason)
    requires Admitted(key) && key in w.roster.effective
    requires
      var spent := if w.planner.usage.Some? then RecordTokens(c, w.planner.usage, Some(TokenSource.Planner), w.clocks.planSpent) else c;
      CanRunAction(spent, key, TierOf(key), ClassOf(key), w.clocks.actionGate, l, w.roster.overrides).Ok?
    ensures
      var events := CycleEvents(c, l, active, w);
      |events| == 2 && events[0].Plan? && events[1].Act? && events[1].key == key
  {
    CycleAllowedIff(c, w.clocks.gate, active);
    AdmittedIsNamed(key);
    assert Wanted(c, w) == Some(key);
    assert Permitted(AfterPlan(c, w), l, ActEvent(w, key));
  }

  /** A forced key on the roster is run, with no planner call, if its gate allows it. */
  lemma {:induction false} ForcedActionRuns(c: Counters, l: Limits, active: Limits, w: World, key: string)
    requires Warranted(c, active, w) && ForcedKey(w) == Some(key) && Admitted(key) && key in w.roster.effective
    requires CanRunAction(c, key, TierOf(key), ClassOf(key), w.clocks.actionGate, l, w.roster.overrides).Ok?
    ensures
      var events := CycleEvents(c, l, active, w);
      |events| == 1 && events[0].Act? && events[0].key == key
  {
    CycleAllowedIff(c, w.clocks.gate, active);
    AdmittedIsNamed(key);
    assert Permitted(c, l, ActEvent(w, key));
  }

  /** What a cycle leaves behind: one that planned or acted counts as a dream and is stamped; only one that acted takes the full cooldown. */
  lemma {:induction false} MarksTell(c: Counters, l: Limits, active: Limits, w: World, before: CycleMarks, after: CycleMarks)
    requires Marked(MarkOf(c, active, w), w.clocks.finish, CooldownAfter(CycleEvents(c, l, active, w), l), before, after)
    ensures
      var events := CycleEvents(c, l, active, w);
      && (events != [] ==> after.totalDreams == before.totalDreams + 1 && after.ended == Some(w.clocks.finish.ms))
      && (events != [] && events[|events| - 1].Act? ==> after.cooldownMs == Some(l.cooldownMs))
      && (events != [] && events[|events| - 1].Plan? ==> after.cooldownMs == Some(60 * 60 * 1000))
      && (!w.dreamsEnabled || w.roster.refuse ==> after == before)
      && (Idles(w) ==> after == CycleMarks(Some(w.clocks.finish.ms), Some(60 * 60 * 1000), before.totalDreams))
  {
    CycleDiscipline(c, l, active, w);
  }

  /** What each status says of the cycle: only a finished, successful action counts as run. */
  lemma {:induction false} StatusTells(c: Counters, l: Limits, active: Limits, w: World, status: Status)
    requires StatusIs(w, CycleEvents(c, l, active, w), status)
    ensures
      var events := CycleEvents(c, l, active, w);
      var acted := events != [] && events[|events| - 1].Act?;
      && (status == RanOk <==>
            acted && if events[|events| - 1].key in FULL_AGENTIC then w.agent.AgentFinished? && w.agent.ok else w.runner == RunnerFinished(true))
      && (status == Skipped ==> !acted && w.planner.PlannerReplied? && w.planner.pick.Some? && Trim(w.planner.pick.value.action) == SKIP)
      && (status == Idle ==> events == [] && w.dreamsEnabled && (w.dailyActionCap == 0 || w.roster.effective == []))
      && (!w.dreamsEnabled || w.roster.refuse ==> status == Refused && events == [])
  {
    CycleDiscipline(c, l, active, w);
  }

  lemma {:induction false} ActIsAllowed(w: World, key: string)
    requires w.dreamsEnabled && !w.roster.refuse && w.dailyActionCap > 0 && Runnable(w, Some(key))
    ensures ActionAllowed(w, ActEvent(w, key)) && ClockedBy(w, ActEvent(w, key))
  {
  }

  lemma {:induction false} OneEvent(c: Counters, l: Limits, e: Event)
    requires Permitted(c, l, e)
    ensures Run(c, l, [e]) == Step(c, l, e) && AllPermitted(c, l, [e])
  {
    assert [e][..0] == [];
    assert Run(c, l, []) == c;
  }

  lemma {:induction false} AnotherEvent(c: Counters, l: Limits, es: seq<Event>, e: Event)
    requires AllPermitted(c, l, es) && Permitted(Run(c, l, es), l, e)
    ensures Run(c, l, es + [e]) == Step(Run(c, l, es), l, e) && AllPermitted(c, l, es + [e])
  {
    assert (es + [e])[..|es|] == es;
    forall i | 0 <= i < |es| + 1
      ensures Permitted(Run(c, l, (es + [e])[..i]), l, (es + [e])[i])
    {
      if i < |es| {
        assert (es + [e])[..i] == es[..i];
      }
    }
  }
}
