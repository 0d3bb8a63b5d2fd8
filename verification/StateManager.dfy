/** The daemon's persisted state: counters, limits in force, and what the last cycle and draft left behind. */
module StateManager {
  import opened Text
  import opened Catalog
  import opened Budget

  datatype Status = RanOk | Skipped | Refused | Failed | Idle

  datatype Outcome = Outcome(at: int, status: Status, action: Option<string>)

  datatype ActionResult = ActionResult(key: string, ok: bool)

  const HISTORY: nat := 40
  const RESULTS: nat := 20

  /** The newest `cap` entries, newest first. */
  function Pushed<T>(x: T, xs: seq<T>, cap: nat): (r: seq<T>)
    ensures r <= [x] + xs && |r| == if |xs| < cap then |xs| + 1 else cap
  {
    if |xs| + 1 <= cap then [x] + xs else ([x] + xs)[..cap]
  }

  /** A configured value and whether it is only the shipped default. */
  datatype Knob<T> = Knob(value: T, shipped: bool)

  function Taken<T>(knob: Knob<T>, applyShipped: bool, current: T): T {
    if applyShipped || !knob.shipped then knob.value else current
  }

  datatype Budgets = Budgets(
    dailyCap: Knob<nat>, weeklyCap: Knob<nat>, cooldownMs: Knob<int>, ceiling: Knob<nat>, reserve: Knob<nat>)

  /** Limits in force once a charter is applied over `l`. */
  function Applied(b: Budgets, applyShipped: bool, l: Limits): Limits {
    Limits(
      Taken(b.dailyCap, applyShipped, l.dailyCap),
      Taken(b.weeklyCap, applyShipped, l.weeklyCap),
      Taken(b.cooldownMs, applyShipped, l.cooldownMs),
      Taken(b.ceiling, applyShipped, l.ceiling),
      Taken(b.reserve, applyShipped, l.reserve))
  }

  /** A value someone set is always taken; a shipped default only where asked for; and applying again changes nothing. */
  lemma {:induction false} SetKnobsAreTaken(b: Budgets, applyShipped: bool, l: Limits)
    ensures
      var n := Applied(b, applyShipped, l);
      && (applyShipped || !b.dailyCap.shipped ==> n.dailyCap == b.dailyCap.value)
      && (applyShipped || !b.weeklyCap.shipped ==> n.weeklyCap == b.weeklyCap.value)
      && (applyShipped || !b.cooldownMs.shipped ==> n.cooldownMs == b.cooldownMs.value)
      && (applyShipped || !b.ceiling.shipped ==> n.ceiling == b.ceiling.value)
      && (applyShipped || !b.reserve.shipped ==> n.reserve == b.reserve.value)
      && Applied(b, applyShipped, n) == n
    ensures
      b.dailyCap.shipped && b.weeklyCap.shipped && b.cooldownMs.shipped && b.ceiling.shipped && b.reserve.shipped ==>
        Applied(b, false, l) == l
  {
  }

  /** What the end of a cycle leaves behind. */
  datatype CycleMarks = CycleMarks(ended: Option<int>, cooldownMs: Option<int>, totalDreams: nat)

  class StateManager {
    var actionsToday: nat
    var lastActionDate: Option<string>
    var actionsThisWeek: nat
    var lastActionWeek: Option<string>
    var recentActions: map<string, int>
    var tokensToday: nat
    var lastTokenDate: Option<string>
    var bySource: Option<BySource>
    var maxCallTokens: nat
    var maxCallTokensAt: Option<int>

    var cycleActive: bool
    var cycleStarted: Option<int>
    var lastCycleEnded: Option<int>
    var lastCycleCooldownMs: Option<int>
    var totalDreams: nat
    var cycleHistory: seq<Outcome>
    var lastActionResults: seq<ActionResult>

    var lastDraftAt: Option<int>
    var lastChangeHash: Option<string>

    var limits: Limits
    var overrides: map<string, real>

    constructor (limits: Limits)
      ensures AsCounters() == Empty && this.limits == limits && overrides == map[]
      ensures Marks() == CycleMarks(None, None, 0) && lastDraftAt == None && lastChangeHash == None
    {
      actionsToday, lastActionDate, actionsThisWeek, lastActionWeek := 0, None, 0, None;
      recentActions := map[];
      tokensToday, lastTokenDate, bySource, maxCallTokens, maxCallTokensAt := 0, None, None, 0, None;
      cycleActive, cycleStarted, lastCycleEnded, lastCycleCooldownMs, totalDreams := false, None, None, None, 0;
      cycleHistory, lastActionResults := [], [];
      lastDraftAt, lastChangeHash := None, None;
      this.limits, overrides := limits, map[];
    }

    function AsCounters(): Counters
      reads this
    {
      Counters(actionsToday, lastActionDate, actionsThisWeek, lastActionWeek, lastCycleEnded, cycleActive,
               recentActions, tokensToday, lastTokenDate, bySource, maxCallTokens, maxCallTokensAt)
    }

    function Marks(): CycleMarks
      reads this
    {
      CycleMarks(lastCycleEnded, lastCycleCooldownMs, totalDreams)
    }

    /** The cooldown the last cycle ended with, else the configured one. */
    function ActiveCooldownMs(): int
      reads this
    {
      if lastCycleCooldownMs.Some? then lastCycleCooldownMs.value else limits.cooldownMs
    }

    /** The limits the gates use. */
    function ActiveLimits(): Limits
      reads this
    {
      limits.(cooldownMs := ActiveCooldownMs())
    }

    method ApplyCharter(b: Budgets, rosterOverrides: map<string, real>, applyShipped: bool)
      modifies this`limits, this`overrides
      ensures limits == Applied(b, applyShipped, old(limits)) && overrides == rosterOverrides
    {
      limits := Applied(b, applyShipped, limits);
      overrides := rosterOverrides;
    }

    method MarkCycleStarted(now: Now)
      modifies this`cycleActive, this`cycleStarted
      ensures cycleActive && cycleStarted == Some(now.ms)
    {
      cycleActive, cycleStarted := true, Some(now.ms);
    }

    /** Ends a cycle; `dreamt` also counts it. */
    method MarkCycleEnded(now: Now, cooldownMs: Option<int>, dreamt: bool)
      modifies this`cycleActive, this`lastCycleEnded, this`lastCycleCooldownMs, this`totalDreams
      ensures !cycleActive && lastCycleEnded == Some(now.ms)
      ensures lastCycleCooldownMs == Some(if cooldownMs.Some? then cooldownMs.value else limits.cooldownMs)
      ensures totalDreams == old(totalDreams) + if dreamt then 1 else 0
    {
      cycleActive, lastCycleEnded := false, Some(now.ms);
      lastCycleCooldownMs := Some(if cooldownMs.Some? then cooldownMs.value else limits.cooldownMs);
      if dreamt {
        totalDreams := totalDreams + 1;
      }
    }

    method PushOutcome(outcome: Outcome)
      modifies this`cycleHistory
      ensures cycleHistory == Pushed(outcome, old(cycleHistory), HISTORY)
    {
      cycleHistory := Pushed(outcome, cycleHistory, HISTORY);
    }

    method PushActionResult(key: string, ok: bool)
      modifies this`lastActionResults
      ensures lastActionResults == Pushed(ActionResult(key, ok), old(lastActionResults), RESULTS)
    {
      lastActionResults := Pushed(ActionResult(key, ok), lastActionResults, RESULTS);
    }

    /** Only the action counters and the key's stamp move. */
    method RecordDreamAction(key: string, now: Now, tier: Tier)
      modifies this`actionsToday, this`lastActionDate, this`actionsThisWeek, this`lastActionWeek, this`recentActions
      ensures AsCounters() == RecordAction(old(AsCounters()), key, tier, now)
    {
      var next := RecordAction(AsCounters(), key, tier, now);
      actionsToday, lastActionDate := next.actionsToday, next.lastActionDate;
      actionsThisWeek, lastActionWeek := next.actionsThisWeek, next.lastActionWeek;
      if key != "" {
        recentActions := recentActions[key := now.ms];
      }
    }

    /** Only the token counters move. */
    method RecordUsage(usage: Option<Usage>, source: Option<TokenSource>, now: Now)
      modifies this`tokensToday, this`lastTokenDate, this`bySource, this`maxCallTokens, this`maxCallTokensAt
      ensures AsCounters() == RecordTokens(old(AsCounters()), usage, source, now)
    {
      var next := RecordTokens(AsCounters(), usage, source, now);
      tokensToday, lastTokenDate, bySource := next.tokensToday, next.lastTokenDate, next.bySource;
      maxCallTokens, maxCallTokensAt := next.maxCallTokens, next.maxCallTokensAt;
    }

    method RecordAutoCommitDraft(changeHash: string, now: Now)
      modifies this`lastDraftAt, this`lastChangeHash
      ensures lastDraftAt == Some(now.ms) && lastChangeHash == Some(changeHash)
    {
      lastDraftAt, lastChangeHash := Some(now.ms), Some(changeHash);
    }
  }
}
