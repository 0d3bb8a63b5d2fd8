/**
 * The budget display: what it shows must agree with what the gates enforce, and the
 * time it says work resumes must be right. Instants are local milliseconds since the
 * start of 1970-01-01, in days of equal length.
 */
module Display {
  import opened Text
  import opened Keys
  import opened Calendar
  import opened Budget
  import opened Catalog

  const DAY_MS: nat := 24 * HOUR_MS

  function DayOf(t: nat): nat {
    t / DAY_MS
  }

  function At(t: nat): Now {
    Now(t, DateKey(DayOf(t)), IsoWeekKey(DayOf(t)))
  }

  function NextLocalMidnight(t: nat): nat {
    (DayOf(t) + 1) * DAY_MS
  }

  datatype Snapshot = Snapshot(
    remainingDaily: nat, dailyCap: nat, tokenCeilingReached: bool,
    cooldownElapsed: bool, lastCycleEnded: Option<int>, allowed: bool)

  /** As the program takes it: the gate is asked about the rolled counters. */
  function TakeSnapshot(c: Counters, now: Now, l: Limits): Snapshot {
    Snapshot(
      Remaining(l.dailyCap, RollDaily(c, now).count), l.dailyCap,
      CeilingReached(c, now, l.ceiling),
      CycleCooldownElapsed(c.lastCycleEnded, now.ms, l.cooldownMs), c.lastCycleEnded,
      CanStartCycle(Rolled(c, now), now, l).reason.Ok?)
  }

  datatype Code = TokenCeilingCode | DailyCapCode | CooldownCode | ConfigInvalid | RosterEmpty | CapZero | OkCode

  datatype Capability = Ready | Cooling | Refusing

  function CodeOf(s: Snapshot): Code {
    if s.tokenCeilingReached then TokenCeilingCode
    else if s.remainingDaily == 0 then (if s.dailyCap == 0 then CapZero else DailyCapCode)
    else if !s.cooldownElapsed then CooldownCode
    else OkCode
  }

  function CapabilityOf(code: Code): Capability {
    if code == OkCode then Ready else if code == CooldownCode then Cooling else Refusing
  }

  function Shown(c: Counters, t: nat, l: Limits): Code {
    CodeOf(TakeSnapshot(c, At(t), l))
  }

  function ResumesFor(code: Code, midnight: int, ended: Option<int>, cooldownMs: int): Option<int> {
    match code
    case TokenCeilingCode => Some(midnight)
    case DailyCapCode => Some(midnight)
    case CooldownCode => if ended.Some? then Some(ended.value + cooldownMs) else None
    case _ => None
  }

  function ResumesAt(c: Counters, t: nat, l: Limits): Option<int> {
    ResumesFor(Shown(c, t, l), NextLocalMidnight(t), c.lastCycleEnded, l.cooldownMs)
  }

  // ----- Display agrees with enforcement ------------------------------------

  function CodeFor(r: Reason, dailyCap: nat): Code {
    match r
    case TokenCeiling(_, _) => TokenCeilingCode
    case DailyExhausted(_, _) => if dailyCap == 0 then CapZero else DailyCapCode
    case CycleCooldown(_) => CooldownCode
    case _ => OkCode
  }

  /**
   * With no override, the display says ready exactly when the gate, asked about the raw counters,
   * allows a cycle; otherwise it shows the reason the gate gives.
   */
  lemma {:induction false} DisplayAgreesWithGate(c: Counters, now: Now, l: Limits)
    ensures
      var s, gate := TakeSnapshot(c, now, l), CanStartCycle(c, now, l);
      && (CapabilityOf(CodeOf(s)) == Ready <==> gate.reason.Ok?)
      && (CapabilityOf(CodeOf(s)) == Cooling <==> gate.reason.CycleCooldown?)
      && (s.allowed <==> gate.reason.Ok?)
      && CodeOf(s) == CodeFor(gate.reason, l.dailyCap)
  {
    GatesSeeThroughRolling(c, "", Daily, Light, now, l, map[]);
  }

  // ----- Resumption is exact ------------------------------------------------

  ghost predicate StoredDate(last: Option<string>) {
    last.Some? ==> exists m: nat :: m <= LAST_DAY && last.value == DateKey(m)
  }

  /** What day `d` sees of a count. */
  function CountOn(count: nat, last: Option<string>, d: nat): nat {
    RollCount(count, last, DateKey(d)).count
  }

  predicate SkewOn(last: Option<string>, d: nat) {
    RollCount(0, last, DateKey(d)).skew
  }

  /** Under a stored date key, a count is kept up to that date and gone after it. */
  lemma {:induction false} KeptUntil(count: nat, m: nat, d: nat)
    requires m <= LAST_DAY && d <= LAST_DAY
    ensures CountOn(count, Some(DateKey(m)), d) == if d <= m then count else 0
    ensures SkewOn(Some(DateKey(m)), d) <==> d < m
  {
    DateKeyOrder(d, m);
  }

  lemma {:induction false} LaterIsNoMore(count: nat, last: Option<string>, d: nat, e: nat)
    requires StoredDate(last) && d <= e <= LAST_DAY
    ensures CountOn(count, last, e) <= CountOn(count, last, d)
  {
    if last.Some? {
      var m: nat :| m <= LAST_DAY && last.value == DateKey(m);
      KeptUntil(count, m, d);
      KeptUntil(count, m, e);
    }
  }

  /** Overnight a count clears, unless its date lies ahead of the clock. */
  ghost predicate Clears(count: nat, today: nat, tomorrow: nat, skew: bool) {
    tomorrow == (if skew then count else 0) && (skew ==> today == count)
  }

  lemma {:induction false} ClearsByKey(count: nat, stored: string, today: string, tomorrow: string)
    requires Less(today, tomorrow) && (AtMost(stored, today) || AtMost(tomorrow, stored))
    ensures Clears(count, RollCount(count, Some(stored), today).count, RollCount(count, Some(stored), tomorrow).count,
                   RollCount(0, Some(stored), today).skew)
  {
    Trichotomy(stored, today);
    Trichotomy(stored, tomorrow);
    if AtMost(stored, today) {
      Transitive(stored, today, tomorrow);
    } else {
      Transitive(today, tomorrow, stored);
    }
  }

  lemma {:induction false} ClearsAfter(count: nat, m: nat, d: nat)
    requires m <= LAST_DAY && d + 1 <= LAST_DAY
    ensures ClearsBetween(count, Some(DateKey(m)), d)
  {
    DateKeyOrder(d, d + 1);
    DateKeyOrder(m, d);
    DateKeyOrder(d + 1, m);
    ClearsByKey(count, DateKey(m), DateKey(d), DateKey(d + 1));
  }

  lemma {:induction false} ClearsOvernight(count: nat, last: Option<string>, d: nat)
    requires StoredDate(last) && d + 1 <= LAST_DAY
    ensures ClearsBetween(count, last, d)
  {
    if last.Some? {
      var m: nat :| m <= LAST_DAY && last.value == DateKey(m);
      assert last == Some(DateKey(m));
      ClearsAfter(count, m, d);
    }
  }

  lemma {:induction false} DaysPass(t: nat, u: nat)
    requires t <= u
    ensures DayOf(t) <= DayOf(u)
    ensures u < NextLocalMidnight(t) ==> DayOf(u) == DayOf(t)
    ensures DayOf(NextLocalMidnight(t)) == DayOf(t) + 1 && t < NextLocalMidnight(t)
  {
  }

  /** The code for tokens spent and actions taken. */
  function CodeBy(tokens: nat, actions: nat, elapsed: bool, l: Limits): Code {
    if tokens >= l.ceiling then TokenCeilingCode
    else if actions >= l.dailyCap then (if l.dailyCap == 0 then CapZero else DailyCapCode)
    else if !elapsed then CooldownCode
    else OkCode
  }

  lemma {:induction false} ShownIs(c: Counters, t: nat, l: Limits, d: nat)
    requires DayOf(t) == d
    ensures Shown(c, t, l) == CodeBy(
              CountOn(Spent(c), c.lastTokenDate, d), CountOn(c.actionsToday, c.lastActionDate, d),
              CycleCooldownElapsed(c.lastCycleEnded, t, l.cooldownMs), l)
  {
  }

  lemma {:induction false} SameUntilMidnight(c: Counters, t: nat, u: nat, l: Limits)
    requires t <= u < NextLocalMidnight(t)
    requires Shown(c, t, l) == TokenCeilingCode || Shown(c, t, l) == DailyCapCode
    ensures Shown(c, u, l) == Shown(c, t, l)
  {
    DaysPass(t, u);
    ShownIs(c, t, l, DayOf(t));
    ShownIs(c, u, l, DayOf(u));
  }

  lemma {:induction false} StillCooling(
    tokens: nat, tokensLater: nat, actions: nat, actionsLater: nat, elapsed: bool, elapsedLater: bool, l: Limits)
    requires tokensLater <= tokens && actionsLater <= actions && CodeBy(tokens, actions, elapsed, l) == CooldownCode
    ensures !elapsed && CodeBy(tokensLater, actionsLater, elapsedLater, l) == if elapsedLater then OkCode else CooldownCode
  {
  }

  lemma {:induction false} CoolingUntilEnded(c: Counters, t: nat, u: nat, l: Limits)
    requires Shown(c, t, l) == CooldownCode && StoredDate(c.lastActionDate) && StoredDate(c.lastTokenDate)
    requires t <= u && DayOf(u) <= LAST_DAY
    ensures c.lastCycleEnded.Some? && t < c.lastCycleEnded.value + l.cooldownMs
    ensures Shown(c, u, l) == if u < c.lastCycleEnded.value + l.cooldownMs then CooldownCode else OkCode
  {
    DaysPass(t, u);
    ShownIs(c, t, l, DayOf(t));
    ShownIs(c, u, l, DayOf(u));
    LaterIsNoMore(c.actionsToday, c.lastActionDate, DayOf(t), DayOf(u));
    LaterIsNoMore(Spent(c), c.lastTokenDate, DayOf(t), DayOf(u));
    StillCooling(
      CountOn(Spent(c), c.lastTokenDate, DayOf(t)), CountOn(Spent(c), c.lastTokenDate, DayOf(u)),
      CountOn(c.actionsToday, c.lastActionDate, DayOf(t)), CountOn(c.actionsToday, c.lastActionDate, DayOf(u)),
      CycleCooldownElapsed(c.lastCycleEnded, t, l.cooldownMs), CycleCooldownElapsed(c.lastCycleEnded, u, l.cooldownMs), l);
  }

  /** The condition, visible when the display is made, under which the stated time is right. */
  predicate SoundFor(code: Code, tokenSkew: bool, actionSkew: bool, l: Limits) {
    && (code == TokenCeilingCode ==> l.ceiling > 0 && !tokenSkew)
    && (code == DailyCapCode ==> !actionSkew)
  }

  predicate ResumptionSound(c: Counters, t: nat, l: Limits) {
    SoundFor(Shown(c, t, l), SkewOn(c.lastTokenDate, DayOf(t)), SkewOn(c.lastActionDate, DayOf(t)), l)
  }

  lemma {:induction false} Overnight(
    spent: nat, tokens: nat, tokensNext: nat, tokenSkew: bool, used: nat, actions: nat, actionsNext: nat, actionSkew: bool,
    elapsed: bool, elapsedNext: bool, l: Limits)
    requires Clears(spent, tokens, tokensNext, tokenSkew) && Clears(used, actions, actionsNext, actionSkew)
    ensures
      var code := CodeBy(tokens, actions, elapsed, l);
      code == TokenCeilingCode || code == DailyCapCode ==>
        (CodeBy(tokensNext, actionsNext, elapsedNext, l) != code <==> SoundFor(code, tokenSkew, actionSkew, l))
  {
  }

  ghost predicate ClearsBetween(count: nat, last: Option<string>, d: nat) {
    Clears(count, CountOn(count, last, d), CountOn(count, last, d + 1), SkewOn(last, d))
  }

  lemma {:induction false} AcrossMidnight(c: Counters, t: nat, s: nat, l: Limits, d: nat)
    requires DayOf(t) == d && DayOf(s) == d + 1
    requires ClearsBetween(c.actionsToday, c.lastActionDate, d) && ClearsBetween(Spent(c), c.lastTokenDate, d)
    requires Shown(c, t, l) == TokenCeilingCode || Shown(c, t, l) == DailyCapCode
    ensures Shown(c, s, l) != Shown(c, t, l) <==>
              SoundFor(Shown(c, t, l), SkewOn(c.lastTokenDate, d), SkewOn(c.lastActionDate, d), l)
  {
    ShownIs(c, t, l, d);
    ShownIs(c, s, l, d + 1);
    Overnight(
      Spent(c), CountOn(Spent(c), c.lastTokenDate, d), CountOn(Spent(c), c.lastTokenDate, d + 1), SkewOn(c.lastTokenDate, d),
      c.actionsToday, CountOn(c.actionsToday, c.lastActionDate, d), CountOn(c.actionsToday, c.lastActionDate, d + 1),
      SkewOn(c.lastActionDate, d),
      CycleCooldownElapsed(c.lastCycleEnded, t, l.cooldownMs), CycleCooldownElapsed(c.lastCycleEnded, s, l.cooldownMs), l);
  }

  lemma {:induction false} AtMidnight(c: Counters, t: nat, l: Limits)
    requires StoredDate(c.lastActionDate) && StoredDate(c.lastTokenDate) && DayOf(t) + 1 <= LAST_DAY
    requires Shown(c, t, l) == TokenCeilingCode || Shown(c, t, l) == DailyCapCode
    ensures Shown(c, NextLocalMidnight(t), l) != Shown(c, t, l) <==> ResumptionSound(c, t, l)
  {
    DaysPass(t, t);
    ClearsOvernight(c.actionsToday, c.lastActionDate, DayOf(t));
    ClearsOvernight(Spent(c), c.lastTokenDate, DayOf(t));
    AcrossMidnight(c, t, NextLocalMidnight(t), l, DayOf(t));
  }

  /**
   * Absent new activity, the stated reason holds at every instant before the stated time; and it
   * no longer holds at that time exactly when the stored date is not ahead of the clock and, for
   * the token ceiling, the ceiling is not zero.
   */
  lemma {:induction false} ResumptionIsExact(c: Counters, t: nat, l: Limits, s: nat)
    requires ResumesAt(c, t, l) == Some(s) && DayOf(s) <= LAST_DAY
    requires StoredDate(c.lastActionDate) && StoredDate(c.lastTokenDate)
    ensures t < s
    ensures forall u: nat :: t <= u < s ==> Shown(c, u, l) == Shown(c, t, l)
    ensures Shown(c, s, l) != Shown(c, t, l) <==> ResumptionSound(c, t, l)
  {
    if Shown(c, t, l) == CooldownCode {
      DaysPass(t, t);
      if s < t {
        DaysPass(s, t);
      }
      forall u: nat | t <= u < s
        ensures Shown(c, u, l) == Shown(c, t, l)
      {
        DaysPass(u, s);
        CoolingUntilEnded(c, t, u, l);
      }
      CoolingUntilEnded(c, t, s, l);
    } else {
      DaysPass(t, t);
      AtMidnight(c, t, l);
      forall u: nat | t <= u < s
        ensures Shown(c, u, l) == Shown(c, t, l)
      {
        SameUntilMidnight(c, t, u, l);
      }
    }
  }

  /** A time is shown exactly when waiting is what it takes: at the token ceiling, the daily cap or in cooldown. */
  lemma {:induction false} TimeIsShownIff(c: Counters, now: Now, l: Limits, midnight: int)
    ensures
      var code := CodeOf(TakeSnapshot(c, now, l));
      var at := ResumesFor(code, midnight, c.lastCycleEnded, l.cooldownMs);
      && (at.Some? <==> code == TokenCeilingCode || code == DailyCapCode || code == CooldownCode)
      && (code == CooldownCode ==> c.lastCycleEnded.Some? && at == Some(c.lastCycleEnded.value + l.cooldownMs))
      && (code == TokenCeilingCode || code == DailyCapCode ==> at == Some(midnight))
  {
  }

  /** So at every instant, with that day's end as the midnight. */
  lemma {:induction false} TimeIsShownAt(c: Counters, t: nat, l: Limits)
    ensures ResumesAt(c, t, l).None? <==>
              CodeOf(TakeSnapshot(c, At(t), l)) in {OkCode, CapZero, ConfigInvalid, RosterEmpty}
  {
    TimeIsShownIff(c, At(t), l, NextLocalMidnight(t));
  }

  /** With a zero ceiling the display promises the next midnight for ever. */
  lemma {:induction false} ZeroCeilingNeverResumes(c: Counters, l: Limits, t: nat)
    requires l.ceiling == 0
    ensures Shown(c, t, l) == TokenCeilingCode && ResumesAt(c, t, l) == Some(NextLocalMidnight(t))
    ensures Shown(c, NextLocalMidnight(t), l) == TokenCeilingCode
  {
  }

  lemma {:induction false} CappedOn(c: Counters, l: Limits, t: nat, d: nat)
    requires DayOf(t) == d && CountOn(c.actionsToday, c.lastActionDate, d) == c.actionsToday
    requires 0 < l.dailyCap <= c.actionsToday && c.lastTokenDate.None? && l.ceiling > 0
    ensures Shown(c, t, l) == DailyCapCode
  {
    ShownIs(c, t, l, d);
    assert CountOn(Spent(c), None, d) == 0;
  }

  /** With the stored date a day ahead of the clock and the cap used up, the promised midnight changes nothing. */
  lemma {:induction false} DateAheadNeverClears(c: Counters, l: Limits, t: nat)
    requires c.lastActionDate == Some(DateKey(DayOf(t) + 1)) && DayOf(t) + 1 <= LAST_DAY
    requires 0 < l.dailyCap <= c.actionsToday && c.lastTokenDate.None? && l.ceiling > 0
    ensures ResumesAt(c, t, l) == Some(NextLocalMidnight(t))
    ensures Shown(c, t, l) == Shown(c, NextLocalMidnight(t), l) == DailyCapCode
  {
    var d := DayOf(t);
    DaysPass(t, t);
    KeptUntil(c.actionsToday, d + 1, d);
    CappedOn(c, l, t, d);
    KeptUntil(c.actionsToday, d + 1, d + 1);
    CappedOn(c, l, NextLocalMidnight(t), d + 1);
  }
}
