/** The house charter: which chores are enabled, how often each may run, and the tokens held back for dreams. */
module Charter {
  import opened Text
  import opened Catalog
  import opened Budget
  import BudgetRuns

  /** Parsed JSON. `Huge` is a number too large to be finite. An object lists its members, with distinct names. */
  datatype Json = Null | Bool(b: bool) | Num(x: real) | Huge | Str(s: string) | Arr(items: seq<Json>) | Obj(members: Members)

  type Members = seq<(string, Json)>

  predicate Distinct(m: Members) {
    forall i, j :: 0 <= i < j < |m| ==> m[i].0 != m[j].0
  }

  function Member(m: Members, name: string): (r: Option<Json>)
    ensures r.Some? ==> (name, r.value) in m
    ensures r.None? ==> forall v :: (name, v) !in m
  {
    if m == [] then None
    else if m[0].0 == name then Some(m[0].1)
    else
      assert m == [m[0]] + m[1..];
      Member(m[1..], name)
  }

  const MAX_INTERVAL_HOURS: real := 8760.0
  const MS_PER_HOUR: real := 3600000.0
  const RESERVED: string := "user:"
  const SCHEMA_VERSION: real := 1.0

  // ----- Cooldown overrides -------------------------------------------------

  function Clamp(hours: real): real {
    if hours < 0.0 then 0.0 else if hours > MAX_INTERVAL_HOURS then MAX_INTERVAL_HOURS else hours
  }

  function Longest(a: real, b: real): real {
    if a >= b then a else b
  }

  /** The override of `key` for a stated interval: the interval, at most a year, but never below the class floor. */
  function OverrideMs(key: string, hours: real): real {
    Longest(Floor(ClassOf(key)) as real, Clamp(hours) * MS_PER_HOUR)
  }

  /** An interval stated within a year and not below the class floor is taken as it is; any other is brought to the nearer bound. */
  lemma {:induction false} OverrideIs(key: string, hours: real)
    ensures
      var floor := if key in EXPENSIVE then 12.0 else 24.0;
      OverrideMs(key, hours) == 3600000.0 * (if hours < floor then floor else if hours > 8760.0 then 8760.0 else hours)
  {
  }

  /** `None` stands for a value that is not a finite number. */
  method BuildCooldownOverrides(hours: map<string, Option<real>>) returns (out: map<string, real>)
    ensures forall k :: k in out <==> Admitted(k) && k in hours && hours[k].Some?
    ensures forall k :: k in out ==> out[k] == OverrideMs(k, hours[k].value)
    ensures BudgetRuns.Lengthens(out)
  {
    out := map[];
    var todo := hours.Keys;
    while todo != {}
      invariant todo <= hours.Keys
      invariant forall k :: k in out <==> k !in todo && Admitted(k) && k in hours && hours[k].Some?
      invariant forall k :: k in out ==> out[k] == OverrideMs(k, hours[k].value)
    {
      var key :| key in todo;
      if Admitted(key) && hours[key].Some? {
        out := out[key := OverrideMs(key, hours[key].value)];
      }
      todo := todo - {key};
    }
  }

  // ----- The chores file ----------------------------------------------------

  datatype Chores = Chores(enabled: map<string, bool>, hours: map<string, Option<real>>, unknown: seq<string>)

  /** The file switches `key` off: its entry is an object with `enabled` false. */
  predicate SwitchedOff(entry: Option<Json>) {
    entry.Some? && entry.value.Obj? && Member(entry.value.members, "enabled") == Some(Bool(false))
  }

  /** The interval the file states, when it is a finite number. */
  function StatedHours(entry: Option<Json>): Option<real> {
    if entry.Some? && entry.value.Obj? then
      match Member(entry.value.members, "minIntervalHours")
      case Some(Num(x)) => Some(x)
      case _ => None
    else None
  }

  predicate Readable(chores: Option<Json>) {
    chores.None? || chores.value.Obj?
  }

  function Entries(chores: Option<Json>): Members
    requires Readable(chores)
  {
    if chores.None? then [] else chores.value.members
  }

  lemma {:induction false} AdmittedNotReserved(key: string)
    requires Admitted(key)
    ensures !(RESERVED <= key)
  {
    assert forall i :: 0 <= i < |ADMITTED| ==> ADMITTED[i] != "" && ADMITTED[i][0] != 'u';
  }

  /** Named in the file, but neither admitted nor reserved. */
  predicate Unknown(key: string, entry: Option<Json>) {
    entry.Some? && !Admitted(key) && !(RESERVED <= key)
  }

  /** What is known of `key` agrees with its entry. */
  predicate Agrees(c: Chores, key: string, entry: Option<Json>) {
    && (key in c.enabled && !c.enabled[key] <==> Admitted(key) && SwitchedOff(entry))
    && (key in c.hours <==> Admitted(key) && StatedHours(entry).Some?)
    && (key in c.hours ==> c.hours[key] == StatedHours(entry))
    && (key in c.unknown <==> Unknown(key, entry))
  }

  /** What the loop has learnt after the entries in `seen`. */
  ghost predicate Learnt(c: Chores, seen: Members) {
    forall k :: Agrees(c, k, Member(seen, k))
  }

  lemma {:induction false} MemberSnoc(m: Members, e: (string, Json), k: string)
    requires forall v :: (e.0, v) !in m
    ensures Member(m + [e], k) == if k == e.0 then Some(e.1) else Member(m, k)
  {
    if m != [] {
      assert (m + [e])[1..] == m[1..] + [e];
      if k == e.0 {
        assert m[0] in m && m[0] == (m[0].0, m[0].1);
      }
      MemberSnoc(m[1..], e, k);
    }
  }

  lemma {:induction false} Unseen(m: Members, i: nat)
    requires i < |m| && Distinct(m)
    ensures forall v :: (m[i].0, v) !in m[..i]
    ensures m[..i + 1] == m[..i] + [m[i]]
  {
  }

  /** An admitted entry that is an object contributes its switch and its interval. */
  function Learn(c: Chores, key: string, rec: Members): Chores {
    var enabled := c.enabled[key := Member(rec, "enabled") != Some(Bool(false))];
    match StatedHours(Some(Obj(rec)))
    case Some(x) => c.(enabled := enabled, hours := c.hours[key := Some(x)])
    case None => c.(enabled := enabled)
  }

  lemma {:induction false} LearnAgrees(c: Chores, key: string, rec: Members, k: string, entry: Option<Json>)
    requires Agrees(c, k, entry) && Admitted(key) && (k == key ==> entry.None?)
    ensures Agrees(Learn(c, key, rec), k, if k == key then Some(Obj(rec)) else entry)
  {
  }

  lemma {:induction false} LearntMore(c: Chores, seen: Members, key: string, rec: Members)
    requires Learnt(c, seen) && Admitted(key) && forall v :: (key, v) !in seen
    ensures Learnt(Learn(c, key, rec), seen + [(key, Obj(rec))])
  {
    assert Member(seen, key).None?;
    forall k
      ensures Agrees(Learn(c, key, rec), k, Member(seen + [(key, Obj(rec))], k))
    {
      MemberSnoc(seen, (key, Obj(rec)), k);
      LearnAgrees(c, key, rec, k, Member(seen, k));
    }
  }

  lemma {:induction false} LearntNothing(c: Chores, seen: Members, e: (string, Json), unknown: seq<string>)
    requires Learnt(c, seen) && (forall v :: (e.0, v) !in seen) && (!Admitted(e.0) || !e.1.Obj?)
    requires unknown == if Unknown(e.0, Some(e.1)) then c.unknown + [e.0] else c.unknown
    ensures Learnt(c.(unknown := unknown), seen + [e])
  {
    assert Member(seen, e.0).None?;
    forall k
      ensures Agrees(c.(unknown := unknown), k, Member(seen + [e], k))
    {
      MemberSnoc(seen, e, k);
      assert Agrees(c, k, Member(seen, k));
    }
  }

  /** Fails only when `chores` is present and not an object. */
  method ParseChoresObject(chores: Option<Json>) returns (r: Option<Chores>)
    requires Readable(chores) ==> Distinct(Entries(chores))
    ensures r.Some? <==> Readable(chores)
    ensures r.Some? ==> Learnt(r.value, Entries(chores))
  {
    if chores.None? {
      return Some(Chores(map[], map[], []));
    }
    if !chores.value.Obj? {
      return None;
    }
    var m := chores.value.members;
    var c := Chores(map[], map[], []);
    for i := 0 to |m|
      invariant Learnt(c, m[..i])
    {
      var (key, entry) := m[i];
      Unseen(m, i);
      if RESERVED <= key {
        if Admitted(key) {
          AdmittedNotReserved(key);
        }
        LearntNothing(c, m[..i], m[i], c.unknown);
        continue;
      }
      ghost var before := c;
      if !Admitted(key) {
        c := c.(unknown := c.unknown + [key]);
      }
      if !entry.Obj? || !Admitted(key) {
        LearntNothing(before, m[..i], m[i], c.unknown);
        continue;
      }
      LearntMore(c, m[..i], key, entry.members);
      c := Learn(c, key, entry.members);
    }
    assert m[..|m|] == m;
    return Some(c);
  }

  // ----- The roster ---------------------------------------------------------

  datatype Roster = Roster(effective: seq<string>, disabled: seq<string>, overrides: map<string, real>, refuse: bool)

  /** A roster can only take away: its keys are admitted and its intervals lengthen. */
  ghost predicate Tightens(r: Roster) {
    && (forall k :: k in r.effective ==> Admitted(k))
    && BudgetRuns.Lengthens(r.overrides)
  }

  datatype ChoresFile = IoError | Absent | Malformed | Parsed(value: Json)

  function AllEnabled(refuse: bool): Roster {
    Roster(ADMITTED, [], map[], refuse)
  }

  /** The file is an object of a known version whose `chores`, if any, is an object. */
  predicate Accepted(value: Json) {
    && value.Obj?
    && (var ver := Member(value.members, "schemaVersion"); ver.None? || ver.value == Num(SCHEMA_VERSION))
    && Readable(Member(value.members, "chores"))
  }

  ghost predicate Follows(r: Roster, entries: Members) {
    && !r.refuse
    && (forall k :: k in r.effective <==> Admitted(k) && !SwitchedOff(Member(entries, k)))
    && (forall k :: k in r.disabled <==> (Admitted(k) && SwitchedOff(Member(entries, k))) || Unknown(k, Member(entries, k)))
    && (forall k :: k in r.overrides <==> Admitted(k) && StatedHours(Member(entries, k)).Some?)
    && (forall k :: k in r.overrides ==> r.overrides[k] == OverrideMs(k, StatedHours(Member(entries, k)).value))
  }

  ghost predicate WellFormed(file: ChoresFile) {
    file.Parsed? && Accepted(file.value) ==> Distinct(Entries(Member(file.value.members, "chores")))
  }

  /** The admitted keys, in catalog order, as enabled or disabled. */
  method SortAdmitted(enabled: map<string, bool>) returns (effective: seq<string>, disabled: seq<string>)
    ensures forall k :: k in effective <==> Admitted(k) && !(k in enabled && !enabled[k])
    ensures forall k :: k in disabled <==> Admitted(k) && k in enabled && !enabled[k]
  {
    effective, disabled := [], [];
    for i := 0 to |ADMITTED|
      invariant forall k :: k in effective <==> k in ADMITTED[..i] && !(k in enabled && !enabled[k])
      invariant forall k :: k in disabled <==> k in ADMITTED[..i] && k in enabled && !enabled[k]
    {
      var key := ADMITTED[i];
      assert ADMITTED[..i + 1] == ADMITTED[..i] + [key];
      if key in enabled && !enabled[key] {
        disabled := disabled + [key];
      } else {
        effective := effective + [key];
      }
    }
    assert ADMITTED[..|ADMITTED|] == ADMITTED;
  }

  method ResolveRoster(file: ChoresFile, previous: Option<Roster>) returns (r: Roster)
    requires WellFormed(file)
    ensures file.IoError? && previous.Some? ==> r == previous.value
    ensures !(file.IoError? && previous.Some?) ==>
              (r.refuse <==> file.IoError? || file.Malformed? || (file.Parsed? && !Accepted(file.value)))
    ensures file.Absent? ==> Follows(r, [])
    ensures file.Parsed? && Accepted(file.value) ==> Follows(r, Entries(Member(file.value.members, "chores")))
    ensures (previous.Some? ==> Tightens(previous.value)) ==> Tightens(r)
  {
    match file
    case IoError =>
      return if previous.Some? then previous.value else AllEnabled(true);
    case Absent =>
      return AllEnabled(false);
    case Malformed =>
      return AllEnabled(true);
    case Parsed(value) =>
      if !value.Obj? {
        return AllEnabled(true);
      }
      var ver := Member(value.members, "schemaVersion");
      if ver.Some? && ver.value != Num(SCHEMA_VERSION) {
        return AllEnabled(true);
      }
      var parsed := ParseChoresObject(Member(value.members, "chores"));
      if parsed.None? {
        return AllEnabled(true);
      }
      var chores := parsed.value;
      var effective, disabled := SortAdmitted(chores.enabled);
      var overrides := BuildCooldownOverrides(chores.hours);
      return Roster(effective, disabled + chores.unknown, overrides, false);
  }

  lemma {:induction false} MemberIs(m: Members, name: string, v: Json)
    requires Distinct(m) && (name, v) in m
    ensures Member(m, name) == Some(v)
  {
    var i :| 0 <= i < |m| && m[i] == (name, v);
    assert i > 0 ==> m[0].0 != m[i].0;
    if m[0].0 != name {
      assert m == [m[0]] + m[1..];
      assert forall i, j :: 0 <= i < j < |m[1..]| ==> m[1..][i] == m[i + 1] && m[1..][j] == m[j + 1];
      MemberIs(m[1..], name, v);
    }
  }

  /** A roster does what its file says of a chore: off if and only if switched off, and at the stated interval. */
  lemma {:induction false} RosterObeysFile(r: Roster, entries: Members, key: string, rec: Members)
    requires Follows(r, entries) && Distinct(entries) && Distinct(rec) && (key, Obj(rec)) in entries && Admitted(key)
    ensures ("enabled", Bool(false)) in rec ==> key !in r.effective && key in r.disabled
    ensures ("enabled", Bool(false)) !in rec ==> key in r.effective
    ensures forall x :: ("minIntervalHours", Num(x)) in rec ==> key in r.overrides && r.overrides[key] == OverrideMs(key, x)
    ensures (forall x :: ("minIntervalHours", Num(x)) !in rec) ==> key !in r.overrides
  {
    MemberIs(entries, key, Obj(rec));
    if ("enabled", Bool(false)) in rec {
      MemberIs(rec, "enabled", Bool(false));
    }
    forall x | ("minIntervalHours", Num(x)) in rec
      ensures key in r.overrides && r.overrides[key] == OverrideMs(key, x)
    {
      MemberIs(rec, "minIntervalHours", Num(x));
    }
  }

  /** A file is accepted exactly when it is an object, of version 1 if it states one, with an object for chores if it has any. */
  lemma {:induction false} AcceptedIff(m: Members)
    requires Distinct(m)
    ensures Accepted(Obj(m)) <==>
              && (forall v :: ("schemaVersion", v) in m ==> v == Num(1.0))
              && (forall v :: ("chores", v) in m ==> v.Obj?)
    ensures !Accepted(Null) && !Accepted(Arr([])) && !Accepted(Str(""))
  {
    forall v | ("schemaVersion", v) in m ensures Member(m, "schemaVersion") == Some(v) {
      MemberIs(m, "schemaVersion", v);
    }
    forall v | ("chores", v) in m ensures Member(m, "chores") == Some(v) {
      MemberIs(m, "chores", v);
    }
  }

  /** What a roster allows, the default roster allows. */
  lemma {:induction false} RosterOnlyTightens(r: Roster, c: Counters, key: string, now: Now, l: Limits)
    requires Tightens(r) && key in r.effective
    ensures key in AllEnabled(false).effective
    ensures CanRunAction(c, key, TierOf(key), ClassOf(key), now, l, r.overrides).Ok? ==>
              CanRunAction(c, key, TierOf(key), ClassOf(key), now, l, AllEnabled(false).overrides).Ok?
  {
    assert CooldownFor(key, ClassOf(key), r.overrides) >= CooldownFor(key, ClassOf(key), map[]);
  }

  // ----- The reserve --------------------------------------------------------

  /** The first layer that is set wins: command line, environment, file, shipped. */
  function PickLayer(argv: Option<nat>, env: Option<nat>, file: Option<nat>, shipped: nat): nat {
    if argv.Some? then argv.value else if env.Some? then env.value else if file.Some? then file.value else shipped
  }

  function Below(layer: Option<nat>, ceiling: nat): Option<nat> {
    if layer.Some? && layer.value >= ceiling then None else layer
  }

  function ResolveReserve(argv: Option<nat>, env: Option<nat>, file: Option<nat>, ceiling: nat): nat {
    var picked := PickLayer(Below(argv, ceiling), Below(env, ceiling), Below(file, ceiling), DEFAULT_DREAMS_RESERVE_TOKENS);
    if picked >= ceiling then DEFAULT_DREAMS_RESERVE_TOKENS else picked
  }

  /** The reserve is the first one set below the ceiling, in the order command line, environment, file; else the shipped one. */
  lemma {:induction false} ReserveIs(argv: Option<nat>, env: Option<nat>, file: Option<nat>, ceiling: nat)
    ensures
      var r := ResolveReserve(argv, env, file, ceiling);
      && (SetBelow(argv, ceiling) ==> Some(r) == argv)
      && (!SetBelow(argv, ceiling) && SetBelow(env, ceiling) ==> Some(r) == env)
      && (!SetBelow(argv, ceiling) && !SetBelow(env, ceiling) && SetBelow(file, ceiling) ==> Some(r) == file)
      && (!SetBelow(argv, ceiling) && !SetBelow(env, ceiling) && !SetBelow(file, ceiling) ==> r == 80_000)
  {
  }

  predicate SetBelow(layer: Option<nat>, ceiling: nat) {
    layer.Some? && layer.value < ceiling
  }

  /**
   * A reserve at or above the ceiling is refused layer by layer, but the last fallback is not
   * checked: drafting is off exactly when no layer is below the ceiling and neither is the shipped reserve.
   */
  lemma {:induction false} DraftingOffIff(argv: Option<nat>, env: Option<nat>, file: Option<nat>, l: Limits)
    requires l.reserve == ResolveReserve(argv, env, file, l.ceiling)
    ensures EffectiveCeiling(ForAutoCommit, l) == 0 <==>
              && !SetBelow(argv, l.ceiling) && !SetBelow(env, l.ceiling) && !SetBelow(file, l.ceiling)
              && l.ceiling <= DEFAULT_DREAMS_RESERVE_TOKENS
  {
  }

  /** With no reserve set, a ceiling of 50,000 leaves drafts nothing. */
  lemma {:induction false} SmallCeilingStopsDrafts(l: Limits)
    requires l.ceiling == 50_000 && l.reserve == ResolveReserve(None, None, None, l.ceiling)
    ensures l.reserve == 80_000 && EffectiveCeiling(ForAutoCommit, l) == 0
  {
    DraftingOffIff(None, None, None, l);
  }
}
