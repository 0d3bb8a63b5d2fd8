/** Drafting of commit messages: gates, cadence and deduplication. Git, the driver and the clock are inputs. */
module AutoCommit {
  import opened Text
  import opened Budget
  import opened BudgetRuns
  import opened StateManager
  import opened Porcelain

  datatype Repository = Missing | Busy | Ready(porcelain: string)

  /** `usage` is what the driver call reported, `None` also when the call threw. */
  datatype Attempt = Attempt(
    enabled: bool, force: bool, repository: Repository, limits: Limits, cooldownMs: int,
    now: Now, usage: Option<Usage>, spent: Now)

  /** Which paths hold secrets, and how a change set is hashed. */
  datatype Rules = Rules(dangerous: string -> bool, hash: string -> string)

  datatype Skip = Disabled | NotARepository | GitBusy | Ceiling | Cooldown | NoChanges | AllDangerous | NothingEligible | Unchanged

  datatype Result = SkippedFor(why: Skip) | Composed(files: seq<string>)

  function FilterSafe(dangerous: string -> bool, files: seq<string>): seq<string> {
    if files == [] then []
    else (if dangerous(files[0]) then [] else [files[0]]) + FilterSafe(dangerous, files[1..])
  }

  function ChangeHash(rules: Rules, porcelain: string): string {
    rules.hash(Render(ChangeSet(rules.dangerous, porcelain)))
  }

  function DraftEvent(rules: Rules, a: Attempt): Event
    requires a.repository.Ready?
  {
    Draft(a.now, a.usage, a.spent, a.force, a.cooldownMs,
          ChangeSet(rules.dangerous, a.repository.porcelain), ChangeHash(rules, a.repository.porcelain))
  }

  /** The last attempt was long enough ago. */
  predicate Rested(last: Option<int>, a: Attempt) {
    last.None? || a.now.ms - last.value >= a.cooldownMs
  }

  /** The driver is called: everything an attempt must find. */
  predicate Drafts(c: Counters, last: Option<int>, lastHash: Option<string>, rules: Rules, a: Attempt) {
    && (a.enabled || a.force)
    && a.repository.Ready?
    && !CeilingReached(c, a.now, EffectiveCeiling(ForAutoCommit, a.limits))
    && (a.force || Rested(last, a))
    && DraftFiles(rules.dangerous, a.repository.porcelain) != []
    && (a.force || lastHash.None? || lastHash.value == "" || lastHash.value != ChangeHash(rules, a.repository.porcelain))
  }

  /** Gates before the working tree is looked at. */
  function EarlySkip(c: Counters, last: Option<int>, a: Attempt): Option<Skip> {
    if !a.enabled && !a.force then Some(Disabled)
    else if a.repository.Missing? then Some(NotARepository)
    else if a.repository.Busy? then Some(GitBusy)
    else if CeilingReached(c, a.now, EffectiveCeiling(ForAutoCommit, a.limits)) then Some(Ceiling)
    else if !a.force && !Rested(last, a) then Some(Cooldown)
    else None
  }

  /** Reads the working tree: the files a draft would cover, the change set's hash, and why there may be none. */
  method Look(rules: Rules, porcelain: string) returns (safe: seq<string>, changeHash: string, why: Skip)
    ensures safe == DraftFiles(rules.dangerous, porcelain) && changeHash == ChangeHash(rules, porcelain)
    ensures why == NoChanges <==> Paths(SplitLines(porcelain)) == []
    ensures why == AllDangerous <==>
              && Paths(SplitLines(porcelain)) != []
              && forall f :: f in FirstFiles(Paths(SplitLines(porcelain))) ==> rules.dangerous(f)
    ensures why == NoChanges || why == AllDangerous || why == NothingEligible
  {
    var filtered := FilterPorcelainForDraft(rules.dangerous, porcelain);
    changeHash := rules.hash(filtered);
    var all := ParsePorcelainStatus(porcelain);
    var changes := FirstFiles(all);
    safe := FirstFiles(FilterDraft(rules.dangerous, changes));
    FilterSafeEmpty(rules.dangerous, changes);
    why :=
      if changes == [] then NoChanges
      else if FilterSafe(rules.dangerous, changes) == [] then AllDangerous
      else NothingEligible;
  }

  lemma {:induction false} FilterSafeEmpty(dangerous: string -> bool, files: seq<string>)
    ensures FilterSafe(dangerous, files) == [] <==> forall f :: f in files ==> dangerous(f)
  {
    if files != [] {
      FilterSafeEmpty(dangerous, files[1..]);
      assert files == [files[0]] + files[1..];
    }
  }

  /** Calls the driver exactly when `Drafts` holds; then, and only then, the attempt is stamped and its spend recorded. */
  method Run(state: StateManager, rules: Rules, a: Attempt) returns (r: Result, events: seq<Event>)
    modifies state`tokensToday, state`lastTokenDate, state`bySource, state`maxCallTokens, state`maxCallTokensAt
    modifies state`lastDraftAt, state`lastChangeHash
    ensures r.Composed? <==> Drafts(old(state.AsCounters()), old(state.lastDraftAt), old(state.lastChangeHash), rules, a)
    ensures r.Composed? ==>
              && r.files == DraftFiles(rules.dangerous, a.repository.porcelain)
              && events == [DraftEvent(rules, a)]
              && state.AsCounters() == Spend(old(state.AsCounters()), DraftEvent(rules, a))
              && state.lastDraftAt == Some(a.now.ms)
              && state.lastChangeHash == Some(ChangeHash(rules, a.repository.porcelain))
    ensures r.Composed? ==>
              Rolled(state.AsCounters(), a.spent).tokensToday == Rolled(old(state.AsCounters()), a.spent).tokensToday + Envelope(a.usage)
    ensures r.SkippedFor? ==>
              && events == [] && state.AsCounters() == old(state.AsCounters())
              && state.lastDraftAt == old(state.lastDraftAt) && state.lastChangeHash == old(state.lastChangeHash)
    ensures r.SkippedFor? && EarlySkip(old(state.AsCounters()), old(state.lastDraftAt), a).Some? ==>
              Some(r.why) == EarlySkip(old(state.AsCounters()), old(state.lastDraftAt), a)
    ensures r.SkippedFor? && EarlySkip(old(state.AsCounters()), old(state.lastDraftAt), a).None? ==>
              (r.why == Unchanged <==> DraftFiles(rules.dangerous, a.repository.porcelain) != [])
  {
    var early := EarlySkip(state.AsCounters(), state.lastDraftAt, a);
    if early.Some? {
      return SkippedFor(early.value), [];
    }
    var safe, changeHash, why := Look(rules, a.repository.porcelain);
    if safe == [] {
      return SkippedFor(why), [];
    }
    if !a.force && state.lastChangeHash.Some? && state.lastChangeHash.value != "" && state.lastChangeHash.value == changeHash {
      return SkippedFor(Unchanged), [];
    }
    Compose(state, DraftEvent(rules, a));
    return Composed(safe), [DraftEvent(rules, a)];
  }

  /** The driver call's spend is recorded, and the attempt stamped with its gate's time and its hash. */
  method Compose(state: StateManager, e: Event)
    requires e.Draft?
    modifies state`tokensToday, state`lastTokenDate, state`bySource, state`maxCallTokens, state`maxCallTokensAt
    modifies state`lastDraftAt, state`lastChangeHash
    ensures state.AsCounters() == Spend(old(state.AsCounters()), e)
    ensures state.lastDraftAt == Some(e.gate.ms) && state.lastChangeHash == Some(e.hash)
    ensures Rolled(state.AsCounters(), e.spent).tokensToday == Rolled(old(state.AsCounters()), e.spent).tokensToday + Envelope(e.usage)
  {
    if e.usage.Some? {
      SpendIsExact(state.AsCounters(), e.usage, Some(TokenSource.AutoCommit), e.spent);
      state.RecordUsage(e.usage, Some(TokenSource.AutoCommit), e.spent);
    }
    state.RecordAutoCommitDraft(e.hash, e.gate);
  }

  /** Un-forced, a draft is composed exactly when everything asks for one: nothing else holds it back, and nothing less will do. */
  lemma {:induction false} DraftsIff(c: Counters, last: Option<int>, lastHash: Option<string>, rules: Rules, a: Attempt)
    requires !a.force
    ensures Drafts(c, last, lastHash, rules, a) <==>
              && a.enabled && a.repository.Ready?
              && Rolled(c, a.now).tokensToday + a.limits.reserve < a.limits.ceiling
              && (last.Some? ==> a.now.ms >= last.value + a.cooldownMs)
              && (exists f :: f in FirstFiles(Paths(SplitLines(a.repository.porcelain))) && Eligible(rules.dangerous, f))
              && (lastHash.Some? && lastHash.value != "" ==> lastHash.value != ChangeHash(rules, a.repository.porcelain))
  {
    if a.repository.Ready? {
      SeenIff(rules.dangerous, a.repository.porcelain);
    }
  }

  /** Forcing skips the switch, the cooldown and the comparison, never the ceiling. */
  lemma {:induction false} ForcedDraftsIff(c: Counters, last: Option<int>, lastHash: Option<string>, rules: Rules, a: Attempt)
    requires a.force
    ensures Drafts(c, last, lastHash, rules, a) <==>
              && a.repository.Ready?
              && Rolled(c, a.now).tokensToday + a.limits.reserve < a.limits.ceiling
              && (exists f :: f in FirstFiles(Paths(SplitLines(a.repository.porcelain))) && Eligible(rules.dangerous, f))
  {
    if a.repository.Ready? {
      SeenIff(rules.dangerous, a.repository.porcelain);
    }
  }

  /** Saving the draft, or any other write under the ignored paths, leaves the hash as it was. */
  lemma {:induction false} NoFeedback(rules: Rules, a: string, lines: string, b: string)
    requires WholeLines(a) && WholeLines(lines) && ChangeSet(rules.dangerous, lines) == []
    ensures ChangeHash(rules, a + lines + b) == ChangeHash(rules, a + b)
  {
    IgnoredLinesAreInvisible(rules.dangerous, a, lines, b);
  }
}
