/**
 * Budget counters: rolled lazily from date and week keys, checked by one set of
 * functions and charged by another. Token counts are whole and not negative.
 */
module Budget {
  import opened Text
  import opened Keys
  import opened Catalog

  const HOUR_MS: nat := 60 * 60 * 1000
  const SHORT_CYCLE_COOLDOWN_MS: nat := HOUR_MS
  const LIGHT_ACTION_COOLDOWN_MS: nat := 24 * HOUR_MS
  const RECIPE_ACTION_COOLDOWN_MS: nat := 12 * HOUR_MS
  const DEFAULT_DREAMS_RESERVE_TOKENS: nat := 80_000
  const PLANNER_RESERVE: nat := 10_000

  /** One reading of the clock: an instant, and the local date and ISO week it falls on. */
  datatype Now = Now(ms: int, today: string, week: string)

  datatype TokenSource = Planner | Agentic | AutoCommit

  /** Spend by source; `None` for a source with no entry. */
  datatype BySource = BySource(planner: Option<nat>, agentic: Option<nat>, autoCommit: Option<nat>)

  /** An absent timestamp also stands for one that does not parse: every reader treats the two alike. */
  datatype Counters = Counters(
    actionsToday: nat,
    lastActionDate: Option<string>,
    actionsThisWeek: nat,
    lastActionWeek: Option<string>,
    lastCycleEnded: Option<int>,
    cycleActive: bool,
    recentActions: map<string, int>,
    tokensToday: nat,
    lastTokenDate: Option<string>,
    bySource: Option<BySource>,
    maxCallTokens: nat,
    maxCallTokensAt: Option<int>)

  const Empty := Counters(0, None, 0, None, None, false, map[], 0, None, None, 0, None)

  datatype Limits = Limits(dailyCap: nat, weeklyCap: nat, cooldownMs: int, ceiling: nat, reserve: nat)

  // ----- Rolling ------------------------------------------------------------

  datatype Roll = Roll(count: nat, key: string, rolled: bool, skew: bool)

  /** A count kept under a stored key, seen under the current key: a later stored key is clock skew and is kept. */
  function RollCount(count: nat, last: Option<string>, key: string): Roll {
    if last.Some? && Less(key, last.value) then Roll(count, last.value, false, true)
    else if last != Some(key) then Roll(0, key, true, false)
    else Roll(count, key, false, false)
  }

  function RollDaily(c: Counters, now: Now): Roll {
    RollCount(c.actionsToday, c.lastActionDate, now.today)
  }

  function RollWeekly(c: Counters, now: Now): Roll {
    RollCount(c.actionsThisWeek, c.lastActionWeek, now.week)
  }

  function OrZero(n: Option<nat>): nat {
    if n.Some? then n.value else 0
  }

  function SumBySource(map_: Option<BySource>): nat {
    match map_
    case None => 0
    case Some(m) => OrZero(m.planner) + OrZero(m.agentic) + OrZero(m.autoCommit)
  }

  /** Tokens on record: the per-source sum when there is a map. */
  function Spent(c: Counters): nat {
    if c.bySource.Some? then SumBySource(c.bySource) else c.tokensToday
  }

  datatype TokenRoll = TokenRoll(
    tokensToday: nat, date: string, bySource: Option<BySource>,
    maxCallTokens: nat, maxCallTokensAt: Option<int>, rolled: bool, skew: bool)

  function RollTokens(c: Counters, now: Now): TokenRoll {
    var r := RollCount(Spent(c), c.lastTokenDate, now.today);
    if r.rolled then TokenRoll(0, r.key, None, 0, None, true, false)
    else TokenRoll(r.count, r.key, c.bySource, c.maxCallTokens, c.maxCallTokensAt, false, r.skew)
  }

  /** The counters with all three rolls applied. */
  function Rolled(c: Counters, now: Now): Counters {
    var d, w, t := RollDaily(c, now), RollWeekly(c, now), RollTokens(c, now);
    c.(actionsToday := d.count, lastActionDate := Some(d.key),
       actionsThisWeek := w.count, lastActionWeek := Some(w.key),
       tokensToday := t.tokensToday, lastTokenDate := Some(t.date), bySource := t.bySource,
       maxCallTokens := t.maxCallTokens, maxCallTokensAt := t.maxCallTokensAt)
  }

  // ----- Gates --------------------------------------------------------------

  function Remaining(cap: nat, used: nat): nat {
    if used < cap then cap - used else 0
  }

  datatype CeilingSource = ForDreams | ForAutoCommit

  /** Drafts stop short of the ceiling by the dreams' reserve, never below zero. */
  function EffectiveCeiling(source: CeilingSource, l: Limits): nat {
    if source == ForAutoCommit then Remaining(l.ceiling, l.reserve) else l.ceiling
  }

  predicate CeilingReached(c: Counters, now: Now, ceiling: nat) {
    RollTokens(c, now).tokensToday >= ceiling
  }

  predicate CycleCooldownElapsed(ended: Option<int>, nowMs: int, cooldownMs: int) {
    ended.None? || nowMs - ended.value >= cooldownMs
  }

  function CycleCooldownRemaining(ended: Option<int>, nowMs: int, cooldownMs: int): nat {
    if ended.None? || cooldownMs - (nowMs - ended.value) < 0 then 0 else cooldownMs - (nowMs - ended.value)
  }

  function Floor(cls: CooldownClass): nat {
    if cls == Light then LIGHT_ACTION_COOLDOWN_MS else RECIPE_ACTION_COOLDOWN_MS
  }

  function CooldownFor(key: string, cls: CooldownClass, overrides: map<string, real>): real {
    if key in overrides then overrides[key] else Floor(cls) as real
  }

  predicate OnCooldown(recent: map<string, int>, key: string, cls: CooldownClass, nowMs: int, overrides: map<string, real>) {
    key in recent && (nowMs - recent[key]) as real < CooldownFor(key, cls, overrides)
  }

  datatype Reason =
    | Ok
    | TokenCeiling(tokens: nat, ceiling: nat)
    | DailyExhausted(used: nat, cap: nat)
    | WeeklyExhausted(used: nat, cap: nat)
    | ActionCooldown(key: string)
    | CycleCooldown(minutes: nat)

  function CanRunAction(
    c: Counters, key: string, tier: Tier, cls: CooldownClass, now: Now, l: Limits, overrides: map<string, real>
  ): Reason {
    if CeilingReached(c, now, l.ceiling) then TokenCeiling(RollTokens(c, now).tokensToday, l.ceiling)
    else if Remaining(l.dailyCap, RollDaily(c, now).count) == 0 then DailyExhausted(RollDaily(c, now).count, l.dailyCap)
    else if tier == Weekly && Remaining(l.weeklyCap, RollWeekly(c, now).count) == 0 then
      WeeklyExhausted(RollWeekly(c, now).count, l.weeklyCap)
    else if OnCooldown(c.recentActions, key, cls, now.ms, overrides) then ActionCooldown(key)
    else Ok
  }

  datatype CycleGate = CycleGate(reason: Reason, remaining: nat, remainingWeekly: nat)

  function CeilMinutes(ms: nat): nat {
    (ms + 59_999) / 60_000
  }

  function CanStartCycle(c: Counters, now: Now, l: Limits): CycleGate {
    var daily := Remaining(l.dailyCap, RollDaily(c, now).count);
    var weekly := Remaining(l.weeklyCap, RollWeekly(c, now).count);
    if CeilingReached(c, now, l.ceiling) then
      CycleGate(TokenCeiling(RollTokens(c, now).tokensToday, l.ceiling), daily, weekly)
    else if daily == 0 then CycleGate(DailyExhausted(RollDaily(c, now).count, l.dailyCap), 0, weekly)
    else if !CycleCooldownElapsed(c.lastCycleEnded, now.ms, l.cooldownMs) then
      CycleGate(CycleCooldown(CeilMinutes(CycleCooldownRemaining(c.lastCycleEnded, now.ms, l.cooldownMs))), daily, weekly)
    else CycleGate(Ok, daily, weekly)
  }

  // ----- Charging -----------------------------------------------------------

  function RecordAction(c: Counters, key: string, tier: Tier, now: Now): Counters {
    var d, w := RollDaily(c, now), RollWeekly(c, now);
    c.(actionsToday := d.count + 1, lastActionDate := Some(d.key),
       actionsThisWeek := w.count + (if tier == Weekly then 1 else 0), lastActionWeek := Some(w.key),
       recentActions := if key == "" then c.recentActions else c.recentActions[key := now.ms])
  }

  datatype Usage = Usage(
    total: Option<nat>, input: Option<nat>, output: Option<nat>,
    cacheRead: Option<nat>, cacheCreation: Option<nat>, reasoning: Option<nat>)

  /** Tokens of one envelope: the stated total when positive, else the sum of the parts. */
  function Envelope(usage: Option<Usage>): nat {
    match usage
    case None => 0
    case Some(u) =>
      if u.total.Some? && u.total.value > 0 then u.total.value
      else OrZero(u.input) + OrZero(u.output) + OrZero(u.cacheRead) + OrZero(u.cacheCreation) + OrZero(u.reasoning)
  }

  function SpendOf(m: BySource, source: TokenSource): Option<nat> {
    match source
    case Planner => m.planner
    case Agentic => m.agentic
    case AutoCommit => m.autoCommit
  }

  function SetSpend(m: BySource, source: TokenSource, n: nat): BySource {
    match source
    case Planner => m.(planner := Some(n))
    case Agentic => m.(agentic := Some(n))
    case AutoCommit => m.(autoCommit := Some(n))
  }

  /** Without a source the map is dropped; with one, counts kept before there was a map go to that source. */
  function RecordTokens(c: Counters, usage: Option<Usage>, source: Option<TokenSource>, now: Now): Counters {
    var t, add := RollTokens(c, now), Envelope(usage);
    var bySource :=
      match source
      case None => None
      case Some(s) =>
        if t.bySource.None? then Some(SetSpend(BySource(None, None, None), s, t.tokensToday + add))
        else Some(SetSpend(t.bySource.value, s, OrZero(SpendOf(t.bySource.value, s)) + add));
    c.(tokensToday := if source.None? then t.tokensToday + add else SumBySource(bySource),
       lastTokenDate := Some(t.date),
       bySource := bySource,
       maxCallTokens := if add > t.maxCallTokens then add else t.maxCallTokens,
       maxCallTokensAt := if add > t.maxCallTokens then Some(now.ms) else t.maxCallTokensAt)
  }

  // ----- What rolling and charging keep -------------------------------------

  lemma {:induction false} RollTwice(count: nat, last: Option<string>, key: string)
    ensures
      var r := RollCount(count, last, key);
      RollCount(r.count, Some(r.key), key) == r.(rolled := false)
  {
    Trichotomy(key, key);
  }

  /** Rolling is idempotent. */
  lemma {:induction false} RollingIsIdempotent(c: Counters, now: Now)
    ensures Rolled(Rolled(c, now), now) == Rolled(c, now)
  {
    RollTwice(c.actionsToday, c.lastActionDate, now.today);
    RollTwice(c.actionsThisWeek, c.lastActionWeek, now.week);
    RollTwice(Spent(c), c.lastTokenDate, now.today);
  }

  /** Every gate sees rolled and raw counters alike. */
  lemma {:induction false} GatesSeeThroughRolling(
    c: Counters, key: string, tier: Tier, cls: CooldownClass, now: Now, l: Limits, overrides: map<string, real>)
    ensures CanStartCycle(Rolled(c, now), now, l) == CanStartCycle(c, now, l)
    ensures CanRunAction(Rolled(c, now), key, tier, cls, now, l, overrides) == CanRunAction(c, key, tier, cls, now, l, overrides)
  {
    RollTwice(c.actionsToday, c.lastActionDate, now.today);
    RollTwice(c.actionsThisWeek, c.lastActionWeek, now.week);
    RollTwice(Spent(c), c.lastTokenDate, now.today);
  }

  /** Seen under a later key, a count is no larger, and the stored key never goes back. */
  lemma {:induction false} LaterRollIsSmaller(count: nat, last: Option<string>, gate: string, charge: string)
    requires AtMost(gate, charge)
    ensures RollCount(count, last, charge).count <= RollCount(count, last, gate).count
    ensures last.Some? ==> AtMost(last.value, RollCount(count, last, charge).key)
  {
    if last.Some? {
      Trichotomy(last.value, charge);
      Trichotomy(last.value, gate);
      if AtMost(charge, last.value) {
        Transitive(gate, charge, last.value);
        Trichotomy(last.value, last.value);
      }
    }
  }

  /** A charge raises the rolled counts by exactly one action, and by one expensive action when it is one. */
  lemma {:induction false} ChargeIsExact(c: Counters, key: string, tier: Tier, now: Now)
    ensures
      var n := Rolled(RecordAction(c, key, tier, now), now);
      && n.actionsToday == Rolled(c, now).actionsToday + 1
      && n.actionsThisWeek == Rolled(c, now).actionsThisWeek + (if tier == Weekly then 1 else 0)
      && n.tokensToday == Rolled(c, now).tokensToday && n.bySource == Rolled(c, now).bySource
  {
    var d, w := RollDaily(c, now), RollWeekly(c, now);
    RollTwice(c.actionsToday, c.lastActionDate, now.today);
    RollTwice(c.actionsThisWeek, c.lastActionWeek, now.week);
  }

  lemma {:induction false} SetSpendIs(m: BySource, source: TokenSource, n: nat)
    ensures SumBySource(Some(SetSpend(m, source, n))) + OrZero(SpendOf(m, source)) == SumBySource(Some(m)) + n
    ensures SpendOf(SetSpend(m, source, n), source) == Some(n)
    ensures forall s :: s != source ==> SpendOf(SetSpend(m, source, n), s) == SpendOf(m, s)
  {
  }

  /** The map a record leaves: it sums to the rolled tokens plus the envelope, and only the source's entry moved. */
  lemma {:induction false} RecordedMap(c: Counters, usage: Option<Usage>, source: TokenSource, now: Now)
    ensures
      var n, t := RecordTokens(c, usage, Some(source), now), RollTokens(c, now);
      && n.bySource.Some? && n.tokensToday == SumBySource(n.bySource) == t.tokensToday + Envelope(usage)
      && (t.bySource.Some? ==> forall s :: s != source ==> SpendOf(n.bySource.value, s) == SpendOf(t.bySource.value, s))
  {
    var t, add := RollTokens(c, now), Envelope(usage);
    if t.bySource.Some? {
      SetSpendIs(t.bySource.value, source, OrZero(SpendOf(t.bySource.value, source)) + add);
    } else {
      SetSpendIs(BySource(None, None, None), source, t.tokensToday + add);
    }
  }

  /** Seen on its own day, a record stands. */
  lemma {:induction false} RecordStands(c: Counters, usage: Option<Usage>, source: Option<TokenSource>, now: Now)
    ensures
      var n := RecordTokens(c, usage, source, now);
      RollTokens(n, now).tokensToday == Spent(n)
  {
    Trichotomy(now.today, now.today);
    RollTwice(Spent(c), c.lastTokenDate, now.today);
  }

  /**
   * Each record raises the rolled tokens by exactly the envelope. With a source, the map exists
   * afterwards, sums to the total, and only that source's entry moved.
   */
  lemma {:induction false} SpendIsExact(c: Counters, usage: Option<Usage>, source: Option<TokenSource>, now: Now)
    ensures
      var n := RecordTokens(c, usage, source, now);
      && n.tokensToday == RollTokens(c, now).tokensToday + Envelope(usage)
      && Spent(n) == n.tokensToday
      && RollTokens(n, now).tokensToday == RollTokens(c, now).tokensToday + Envelope(usage)
      && (n.bySource.Some? <==> source.Some?)
      && (source.Some? && RollTokens(c, now).bySource.Some? ==>
            forall s :: s != source.value ==> SpendOf(n.bySource.value, s) == SpendOf(RollTokens(c, now).bySource.value, s))
  {
    RecordStands(c, usage, source, now);
    if source.Some? {
      RecordedMap(c, usage, source.value, now);
    }
  }

  /** Counts kept before there was a map all go to the source that makes the map. */
  lemma {:induction false} FirstSourceTakesAll(c: Counters, usage: Option<Usage>, source: TokenSource, now: Now)
    requires RollTokens(c, now).bySource.None?
    ensures
      var n := RecordTokens(c, usage, Some(source), now);
      && n.bySource.Some?
      && SpendOf(n.bySource.value, source) == Some(RollTokens(c, now).tokensToday + Envelope(usage))
      && forall s :: s != source ==> SpendOf(n.bySource.value, s) == None
  {
    SpendIsExact(c, usage, Some(source), now);
  }

  /** The day's largest call is kept with its time: it is this one exactly when this one is larger. */
  lemma {:induction false} LargestCallIsKept(c: Counters, usage: Option<Usage>, source: Option<TokenSource>, now: Now)
    ensures
      var n, t := RecordTokens(c, usage, source, now), RollTokens(c, now);
      && Envelope(usage) <= n.maxCallTokens && t.maxCallTokens <= n.maxCallTokens
      && (n.maxCallTokens == Envelope(usage) || n.maxCallTokens == t.maxCallTokens)
      && (n.maxCallTokens > t.maxCallTokens ==> n.maxCallTokensAt == Some(now.ms))
      && (n.maxCallTokens == t.maxCallTokens ==> n.maxCallTokensAt == t.maxCallTokensAt)
  {
  }

  // ----- What an envelope counts --------------------------------------------

  datatype Part = Input | Output | CacheRead | CacheCreation | Reasoning

  /** The usage with one part `k` tokens larger. */
  function Raised(u: Usage, part: Part, k: nat): Usage {
    match part
    case Input => u.(input := Some(OrZero(u.input) + k))
    case Output => u.(output := Some(OrZero(u.output) + k))
    case CacheRead => u.(cacheRead := Some(OrZero(u.cacheRead) + k))
    case CacheCreation => u.(cacheCreation := Some(OrZero(u.cacheCreation) + k))
    case Reasoning => u.(reasoning := Some(OrZero(u.reasoning) + k))
  }

  predicate StatesTotal(u: Usage) {
    u.total.Some? && u.total.value > 0
  }

  /** Without a positive stated total, every token of every part is recorded, and nothing else. */
  lemma {:induction false} EveryPartCounts(
    c: Counters, u: Usage, part: Part, k: nat, source: Option<TokenSource>, now: Now)
    requires !StatesTotal(u)
    ensures RecordTokens(c, Some(Raised(u, part, k)), source, now).tokensToday
         == RecordTokens(c, Some(u), source, now).tokensToday + k
    ensures RecordTokens(c, Some(Usage(u.total, None, None, None, None, None)), source, now).tokensToday
         == RecordTokens(c, None, source, now).tokensToday == RollTokens(c, now).tokensToday
  {
    SpendIsExact(c, Some(Raised(u, part, k)), source, now);
    SpendIsExact(c, Some(u), source, now);
    SpendIsExact(c, Some(Usage(u.total, None, None, None, None, None)), source, now);
    SpendIsExact(c, None, source, now);
  }

  /** A positive stated total is recorded as stated, whatever the parts say. */
  lemma {:induction false} StatedTotalCounts(c: Counters, u: Usage, source: Option<TokenSource>, now: Now)
    requires StatesTotal(u)
    ensures RecordTokens(c, Some(u), source, now).tokensToday == RollTokens(c, now).tokensToday + u.total.value
  {
    SpendIsExact(c, Some(u), source, now);
  }

  // ----- What the gates ask -------------------------------------------------

  /** An action may run exactly when tokens, actions and, for an expensive one, the week leave room and its cooldown is over. */
  lemma {:induction false} ActionAllowedIff(
    c: Counters, key: string, tier: Tier, cls: CooldownClass, now: Now, l: Limits, overrides: map<string, real>)
    ensures CanRunAction(c, key, tier, cls, now, l, overrides).Ok? <==>
              && Rolled(c, now).tokensToday < l.ceiling
              && Rolled(c, now).actionsToday < l.dailyCap
              && (tier == Weekly ==> Rolled(c, now).actionsThisWeek < l.weeklyCap)
              && (key in c.recentActions && key in overrides ==> (now.ms - c.recentActions[key]) as real >= overrides[key])
              && (key in c.recentActions && key !in overrides ==>
                    now.ms >= c.recentActions[key] + if cls == Light then 24 * HOUR_MS else 12 * HOUR_MS)
  {
  }

  /** A cycle may start exactly when tokens and actions leave room and the last cycle's cooldown is over. */
  lemma {:induction false} CycleAllowedIff(c: Counters, now: Now, l: Limits)
    ensures
      var gate := CanStartCycle(c, now, l);
      && (gate.reason.Ok? <==>
            && Rolled(c, now).tokensToday < l.ceiling
            && Rolled(c, now).actionsToday < l.dailyCap
            && (c.lastCycleEnded.Some? ==> now.ms >= c.lastCycleEnded.value + l.cooldownMs))
      && (Rolled(c, now).actionsToday <= l.dailyCap ==> gate.remaining + Rolled(c, now).actionsToday == l.dailyCap)
      && (Rolled(c, now).actionsThisWeek <= l.weeklyCap ==> gate.remainingWeekly + Rolled(c, now).actionsThisWeek == l.weeklyCap)
  {
  }

  /** The minutes a cooling gate names are the fewest whole ones after which the cooldown is over. */
  lemma {:induction false} MinutesAreEnough(c: Counters, now: Now, l: Limits)
    requires CanStartCycle(c, now, l).reason.CycleCooldown?
    ensures
      var m := CanStartCycle(c, now, l).reason.minutes;
      && m > 0
      && CycleCooldownElapsed(c.lastCycleEnded, now.ms + 60_000 * m, l.cooldownMs)
      && !CycleCooldownElapsed(c.lastCycleEnded, now.ms + 60_000 * (m - 1), l.cooldownMs)
  {
  }

  /** Drafts and the dreams' reserve share the ceiling; a reserve beyond it leaves drafts nothing. */
  lemma {:induction false} DraftCeilingIs(l: Limits)
    ensures l.reserve <= l.ceiling ==> EffectiveCeiling(ForAutoCommit, l) + l.reserve == l.ceiling
    ensures l.reserve >= l.ceiling ==> EffectiveCeiling(ForAutoCommit, l) == 0
    ensures EffectiveCeiling(ForDreams, l) == l.ceiling
  {
  }
}
