# Verified models of the house daemon and its transports

A Dafny model of five parts of the repository whose guarantees only exist over whole runs.

- **Lucerna, the house steward daemon** (`instruments/lucerna`). It spends actions and model tokens under
  daily, ISO-weekly and token limits, with per-action cooldowns and a cycle cooldown, on a wall clock that
  may run backwards. Counters are rolled lazily from string date keys, checked by one function and charged
  by another. `Budget`, `BudgetRuns`, `Calendar` and `Keys` hold the counters, the runs and the keys;
  `Charter` the chores roster; `StateManager`, `Somniator`, `AutoCommit`, `Porcelain` and `Daemon` the
  stateful program around them; `Display` what it shows; `Heartbeat` its pulse.
- **Write governance** (`Governance`): the write guard and the after-check that must agree with it.
- **The ACP transport** (`Streams`, `LineReader`, `StdinReader`, `Gateway`): a cancel-safe line reader, its
  chunked sibling, and a message gateway with completion barriers.
- **The terminal wait protocol** (`Wait`, with its module `StableWait`).
- **Compaction image context** (`Text`, `ImageFiles`, `Compaction`): the `<image_files>` envelope and the
  path list it carries through compactions.

Concurrent protocols are step systems: `Run(start, steps)` for an arbitrary list of steps, so a statement
about `Run` covers every interleaving. Stateful objects are classes whose methods are proved against the
functions the runs use. Clocks, models, agents, git and the file system are inputs.

`dafny verify dfyconfig.toml` checks everything.

## What turned out not to hold

Each has a lemma with a failing case and one that says exactly when the code is right.

- A charge dated before its gate can exceed a cap (`BudgetRuns.BackdatedChargeExceedsCap`, `CapKeptIff`).
- The displayed resumption time is wrong for a zero token ceiling, and whenever the stored date lies ahead
  of the clock (`Display.ZeroCeilingNeverResumes`, `DateAheadNeverClears`, `ResumptionIsExact`).
- Two hundred changed files under ignored paths hide every eligible change from the drafting decision,
  though not from its hash (`Porcelain.IgnoredFilesStarveDrafts`, `StarvedIff`).
- The resolved dreams reserve can reach the token ceiling, which switches drafting off
  (`Charter.SmallCeilingStopsDrafts`, `DraftingOffIff`).
- A resize after the feeder has exited is not noticed by a waiter, so a wait can report "ended" on a grid
  that meets its condition (`Wait.SilentResizeIsMissed`, `LateResizeIsMissed`, `EndedIsWrongIff`).
- Completions are a barrier only while the receiver loop runs: a dropped loop resolves completions of
  handlers that never ran (`Gateway.DroppedLoopResolvesUnrun`, `CompletionsAreExact`).
- A compaction reorders the image list when something other than a turn listed images after the last turn's
  (`Compaction.InterjectedImageMoves`, `CompactKeeps`, and for any history `CompactionKeepsImagesIff`).
- The after-check and the write guard disagree for lists that were not built by merging
  (`Governance.UnmergedListsDisagree`, `WhenTheyDisagree`).

## Model

| member | source | states |
|---|---|---|
| `Keys.Trichotomy` | instruments/lucerna/src/budget.ts:198 | the string order that compares stored keys is total and strict |
| `Keys.DecimalOrder` | instruments/lucerna/src/budget.ts:172-177 | decimals of one width compare as strings exactly as their numbers do |
| `Calendar.YearLength` | instruments/lucerna/src/budget.ts:180-187 | the closed form for year starts is the Gregorian calendar: 365 days, or 366 in a leap year, from 1970 at 0 |
| `Calendar.DateOfIs` | instruments/lucerna/src/budget.ts:172-177 | the year, month and day of a day number form a real date that many days after the epoch |
| `Calendar.DateKeyOrder` | instruments/lucerna/src/budget.ts:172-177 | for 1970 to 9999 date keys are ordered as strings exactly as dates are in time, and are distinct |
| `Calendar.WeekIsIso` | instruments/lucerna/src/budget.ts:179-187 | the computed week is the ISO week by the first-Thursday rule, and the only one satisfying it |
| `Calendar.JanuaryFourth` | instruments/lucerna/src/budget.ts:179-187 | January 4 is in week 1 of its own year, for every year from 1970 |
| `Calendar.WeekKeyOrder` | instruments/lucerna/src/budget.ts:179-187 | two days share a week key iff they are in one Monday-to-Sunday week; a later week has a greater key, across year ends and 52- and 53-week years |
| `Calendar.WeekResetIsFirstChange` | instruments/lucerna/src/budgets-display.ts:136-149 | the displayed weekly reset is a Monday and the first later day whose week key differs |
| `Calendar.KeysAdvanceTogether` | instruments/lucerna/src/budget.ts:172-187 | a date key that does not go back takes the week key with it |
| `Budget.RollingIsIdempotent` | instruments/lucerna/src/budget.ts:189-298 | rolling the daily, weekly and token counters twice is rolling them once |
| `Budget.GatesSeeThroughRolling` | instruments/lucerna/src/budget.ts:443-544 | both gates answer alike for raw and for rolled counters, reason included |
| `Budget.LaterRollIsSmaller` | instruments/lucerna/src/budget.ts:189-243 | under a later key a count is no larger, and the stored key never goes back |
| `Budget.ChargeIsExact` | instruments/lucerna/src/budget.ts:546-565 | a charge raises the rolled counts by exactly one action, and one expensive action when it is one, and leaves the tokens alone |
| `Budget.SpendIsExact` | instruments/lucerna/src/budget.ts:341-391 | a record raises the rolled tokens by exactly the envelope; the total is the per-source sum; only the given source's entry moves |
| `Budget.EveryPartCounts` | instruments/lucerna/src/budget.ts:326-339 | with no positive stated total, each of the five parts counts in full toward the recorded tokens, and nothing else does |
| `Budget.StatedTotalCounts` | instruments/lucerna/src/budget.ts:326-331 | a positive stated total is recorded as stated, whatever the parts say |
| `Budget.FirstSourceTakesAll` | instruments/lucerna/src/budget.ts:367-376 | counts kept before there was a per-source map go to the source that makes the map |
| `Budget.LargestCallIsKept` | instruments/lucerna/src/budget.ts:359-364 | the day's largest call is kept with its time |
| `Budget.ActionAllowedIff` | instruments/lucerna/src/budget.ts:443-499 | an action may run iff tokens, actions and, for an expensive one, the week leave room and its cooldown, 24 or 12 hours unless overridden, is over |
| `Budget.CycleAllowedIff` | instruments/lucerna/src/budget.ts:501-544 | a cycle may start iff tokens and actions leave room and the cooldown is over; the remaining budgets add up to the caps |
| `Budget.MinutesAreEnough` | instruments/lucerna/src/budget.ts:534-541 | the minutes a cooling gate names are the fewest whole ones after which the cooldown is over |
| `Budget.DraftCeilingIs` | instruments/lucerna/src/budget.ts:50-59 | drafts and the reserve share the ceiling; a reserve beyond it leaves drafts nothing |
| `BudgetRuns.RunTallied` | instruments/lucerna/src/budget.ts:189-243 | over every run the stored counts are the current day's and week's tallies, and earlier keys are closed |
| `BudgetRuns.CapsHoldOverRuns` | instruments/lucerna/src/budget.ts:443-499 | over every run from the empty state, the clock free to jump back between events: counts stay within caps, no date or week is charged beyond its cap, totals are at most cap times periods begun |
| `BudgetRuns.KeysNeverGoBack` | instruments/lucerna/src/budget.ts:189-298 | stored date and week keys never decrease over any run |
| `BudgetRuns.CapKeptIff` | instruments/lucerna/src/budget.ts:189-215 | one gated charge keeps a cap iff it is not the case that the count was full, the gate rolled it away and the charge did not |
| `BudgetRuns.BackdatedChargeExceedsCap` | instruments/lucerna/src/budget.ts:546-565 | with a charge dated before its gate, two actions fit under a cap of one |
| `BudgetRuns.OvershootIsOneCall` | instruments/lucerna/src/budget.ts:245-298 | over every run mixing planner, agentic and draft calls, the day's tokens are zero or below the ceiling plus the day's largest call, and below ceiling less reserve plus that call while only drafts have spent; the total is the per-source sum |
| `BudgetRuns.ReservationHolds` | instruments/lucerna/src/somniator.ts:635-646 | a planner call that spends at most its reservation never takes the day past the ceiling |
| `BudgetRuns.PlannersStayWithin` | instruments/lucerna/src/somniator.ts:635-646 | over every run in which only such calls spend, the ceiling is never passed |
| `BudgetRuns.FloorsHoldOverRuns` | instruments/lucerna/src/budget.ts:428-441 | over any run with changing rosters, a charged key passes its gate again no sooner than its class floor after that charge |
| `Charter.BuildCooldownOverrides` | instruments/lucerna/src/charter.ts:650-676 | exactly the admitted keys with a finite interval get an override: the interval clamped to a year, never below the class floor |
| `Charter.OverrideIs` | instruments/lucerna/src/charter.ts:660-674 | an interval within a year and not below its class floor is taken as stated, any other at the nearer bound |
| `Charter.ParseChoresObject` | instruments/lucerna/src/charter.ts:678-743 | fails iff chores is present and not an object; otherwise exactly the admitted keys switched off, and the finite intervals, are learnt |
| `Charter.ResolveRoster` | instruments/lucerna/src/charter.ts:745-849 | refuses exactly on unreadable, malformed or wrong-version files; otherwise enabled keys are exactly the admitted ones not switched off and disabled ones the rest plus unknown keys; a read error keeps the previous roster; every roster only tightens |
| `Charter.RosterObeysFile` | instruments/lucerna/src/charter.ts:719-740 | a chore is off iff its entry says enabled false, and has the stated interval as its override |
| `Charter.AcceptedIff` | instruments/lucerna/src/charter.ts:781-813 | a file is accepted iff it is an object, of version 1 if it states one, with an object for chores if any |
| `Charter.RosterOnlyTightens` | instruments/lucerna/src/charter.ts:814-849 | an action allowed under a roster is admitted and allowed under the default roster |
| `Charter.ReserveIs` | instruments/lucerna/src/charter.ts:465-499 | the reserve is the first set below the ceiling, in the order command line, environment, file; else the shipped one |
| `Charter.DraftingOffIff` | instruments/lucerna/src/charter.ts:463-499 | the draft ceiling is zero iff no layer sets a reserve below the ceiling and the ceiling is at most the shipped reserve |
| `Charter.SmallCeilingStopsDrafts` | instruments/lucerna/src/charter.ts:490-499 | with no reserve set, a ceiling of 50,000 resolves to the shipped reserve of 80,000 and leaves drafts nothing |
| `StateManager.StateManager.RecordDreamAction` | instruments/lucerna/src/state.ts:535-551 | the new counters are the charged old ones; nothing else changes |
| `StateManager.StateManager.RecordUsage` | instruments/lucerna/src/state.ts:553-570 | the new counters are the old ones with the spend recorded; nothing else changes |
| `StateManager.StateManager.PushOutcome` | instruments/lucerna/src/state.ts:572-578 | the history is the newest forty outcomes, newest first |
| `StateManager.StateManager.PushActionResult` | instruments/lucerna/src/state.ts:391-396 | the results are the newest twenty, newest first |
| `StateManager.SetKnobsAreTaken` | instruments/lucerna/src/state.ts:204-219 | a knob someone set is always taken, a shipped one only where asked for, and applying again changes nothing |
| `Somniator.Finish` | instruments/lucerna/src/somniator.ts:465-490 | the three finish modes: end, end-only and none, each with its marks and cooldown |
| `Somniator.Admit` | instruments/lucerna/src/somniator.ts:499-606 | a cycle gets past its first gates iff enabled, roster valid and not empty, cap not zero, forced key on the roster, and schedule and budgets allow; else refused or idle |
| `Somniator.CallPlanner` | instruments/lucerna/src/somniator.ts:629-683 | the planner is called iff its reservation fits, and its spend is recorded |
| `Somniator.PickIs` | instruments/lucerna/src/somniator.ts:277-313 | the pick is the action the planner named, white space aside, iff it is allowed and a reason is given |
| `Somniator.ForcedKeyIs` | instruments/lucerna/src/somniator.ts:615-634 | a forced key is the one given, white space aside; an empty one forces nothing |
| `Somniator.Choose` | instruments/lucerna/src/somniator.ts:615-758 | the forced key or the planner's pick, and how every other case ends |
| `Somniator.Execute` | instruments/lucerna/src/somniator.ts:787-917 | an action that began, its agent spawned or its runner run, raises the rolled counts by one and stamps its key at the charge; one that did not changes neither; the agent's tokens are added exactly |
| `Somniator.Dream` | instruments/lucerna/src/somniator.ts:608-917 | past the gates: exactly the specified events, counters, status and cooldown |
| `Somniator.RunDreamCycle` | instruments/lucerna/src/somniator.ts:449-917 | on every path that does not throw: the events are exactly the specified ones, the counters are the old ones run through them, the status follows, the reported action is the wanted one, no cycle stays active, and the end, cooldown and dream count are marked exactly as the finish mode says |
| `Somniator.CycleIsRun` | instruments/lucerna/src/somniator.ts:449-917 | everything a cycle spends and charges was allowed by its gate at its turn |
| `Somniator.CycleDiscipline` | instruments/lucerna/src/somniator.ts:492-917 | at most one planner call and one action; either only when enabled, roster valid and not empty and budgets free, forced or not; an action only when admitted and on the roster, charged iff it began; un-forced only after the running cooldown |
| `Somniator.WarrantedCyclePlans` | instruments/lucerna/src/somniator.ts:608-664 | a warranted cycle with no forced key and its reservation free calls the planner and records its usage |
| `Somniator.PickedActionRuns` | instruments/lucerna/src/somniator.ts:685-803 | the planner's pick is run if it is on the roster and its gate, after the planner's spend, allows it |
| `Somniator.ForcedActionRuns` | instruments/lucerna/src/somniator.ts:615-634 | a forced key on the roster is run, with no planner call, if its gate allows it |
| `Somniator.StatusTells` | instruments/lucerna/src/somniator.ts:465-490 | a cycle counts as run iff its action finished successfully; skipped, idle and refused mean what they say |
| `Somniator.MarksTell` | instruments/lucerna/src/somniator.ts:465-490 | a cycle that planned or acted counts as a dream and is stamped; only one that acted takes the full cooldown |
| `Daemon.RunDaemon` | instruments/lucerna/src/daemon.ts:270-336 | over every run of ticks from a fresh state: log and state are exactly those of the ticks' drafts and cycles in turn, the counters are the run of the log, no cycle stays active, consecutive un-forced drafts are spaced by their cooldown and for different change sets, and on a monotone clock un-forced planner calls are spaced by the shorter cycle cooldown |
| `Daemon.TickDoesBoth` | instruments/lucerna/src/daemon.ts:280-330 | a tick leaves out neither its due draft nor its cycle |
| `Daemon.PlanStep` | instruments/lucerna/src/state.ts:453-506 | a cycle keeps every earlier planner call behind the end whose cooldown is running |
| `Daemon.AccountedIsSafe` | instruments/lucerna/src/daemon.ts:270-336 | such a run keeps the caps, the token bound and every class floor |
| `Display.DisplayAgreesWithGate` | instruments/lucerna/src/budgets-display.ts:188-204 | with no override the display is ready iff the gate on the raw counters allows a cycle, and else shows the gate's reason |
| `Display.TimeIsShownIff` | instruments/lucerna/src/budgets-display.ts:224-232 | a resumption time is shown iff the reason is the token ceiling, the daily cap or the cooldown: the midnight, or the end plus the cooldown |
| `Display.TimeIsShownAt` | instruments/lucerna/src/budgets-display.ts:224-232 | at every instant no time is shown iff the state is ready, the cap is zero or the configuration is at fault |
| `Display.ResumptionIsExact` | instruments/lucerna/src/budgets-display.ts:217-232 | the stated reason holds at every instant before the stated time, and fails at it iff the stored date is not ahead of the clock and, for the token ceiling, the ceiling is not zero |
| `Display.ZeroCeilingNeverResumes` | instruments/lucerna/src/budgets-display.ts:225-227 | with a zero ceiling the next midnight is promised and never true |
| `Display.DateAheadNeverClears` | instruments/lucerna/src/budgets-display.ts:225-227 | with the stored date a day ahead and the cap used up, the daily cap still stands at the promised midnight |
| `Display.ClearsOvernight` | instruments/lucerna/src/budgets-display.ts:132-134 | a count clears at the next local midnight unless its date is ahead of the clock |
| `Porcelain.ParsePorcelainStatus` | instruments/lucerna/src/auto-commit.ts:110-123 | the paths of the porcelain lines, in order |
| `Porcelain.PathIs` | instruments/lucerna/src/auto-commit.ts:113-120 | a line's path is what follows its status, unquoted, with forward slashes |
| `Text.SlashesIs` | instruments/lucerna/src/auto-commit.ts:119 | backslashes become slashes and nothing else changes |
| `Text.UnquoteIs` | instruments/lucerna/src/auto-commit.ts:119 | a quoted path loses its quotes and an unquoted one stays |
| `Porcelain.RenamedPathIs` | instruments/lucerna/src/auto-commit.ts:116-118 | of a rename it is the new name |
| `Porcelain.IgnoredIff` | instruments/lucerna/src/auto-commit.ts:133-139 | exactly the instruments and node_modules directories and what lies below them are ignored |
| `Porcelain.DotSlashIsIgnored` | instruments/lucerna/src/auto-commit.ts:133-135 | a leading dot and slash makes no difference |
| `Porcelain.FilterDraftIs` | instruments/lucerna/src/auto-commit.ts:141-144 | a file is kept for a draft iff it is neither dangerous nor ignored |
| `Porcelain.FilterDraftConcat` | instruments/lucerna/src/auto-commit.ts:125-144 | the draft filter works file by file, keeping order |
| `Porcelain.FilterPorcelainForDraft` | instruments/lucerna/src/auto-commit.ts:146-161 | the text is exactly the lines whose path is neither dangerous nor ignored, in order |
| `Porcelain.FilteredTextIsChangeSet` | instruments/lucerna/src/auto-commit.ts:146-161 | two filtered texts are equal iff the kept lines are |
| `Porcelain.IgnoredLinesAreInvisible` | instruments/lucerna/src/auto-commit.ts:129-161 | inserting or deleting whole lines with no eligible path, anywhere, leaves the change set as it was |
| `Porcelain.OneIgnoredLine` | instruments/lucerna/src/auto-commit.ts:133-161 | a single line contributes itself if kept and nothing otherwise, with or without a carriage return |
| `Porcelain.SeenIff` | instruments/lucerna/src/auto-commit.ts:379-380 | the decision sees a change iff one of the first two hundred paths is eligible |
| `Porcelain.IgnoredFilesStarveDrafts` | instruments/lucerna/src/auto-commit.ts:376-397 | two hundred ignored files hide every later eligible file from the decision while its line stays in the hashed change set |
| `Porcelain.StarvedIff` | instruments/lucerna/src/auto-commit.ts:376-397 | that happens iff eligible paths exist and all come after the first two hundred |
| `Porcelain.FewFilesAreSeen` | instruments/lucerna/src/auto-commit.ts:376-397 | with at most two hundred changed files, decision and change set agree on whether there is anything to draft |
| `AutoCommit.Run` | instruments/lucerna/src/auto-commit.ts:291-448 | the driver is called iff enabled or forced, git ready, below the draft ceiling, rested, something eligible, and the change set new; then and only then the attempt is stamped and its spend recorded |
| `AutoCommit.DraftsIff` | instruments/lucerna/src/auto-commit.ts:299-420 | un-forced, a draft is composed iff enabled, git ready, tokens plus reserve below the ceiling, the cooldown over, an eligible file among the first two hundred, and the hash new |
| `AutoCommit.ForcedDraftsIff` | instruments/lucerna/src/auto-commit.ts:299-420 | forcing skips the switch, the cooldown and the comparison, never the ceiling |
| `AutoCommit.Look` | instruments/lucerna/src/auto-commit.ts:376-397 | the files a draft would cover, the hash of the filtered change set, and the reason when there are none |
| `AutoCommit.NoFeedback` | instruments/lucerna/src/auto-commit.ts:376-378 | writes under ignored paths leave the decision hash unchanged |
| `Heartbeat.Heartbeat.AutoDecay` | instruments/lucerna/src/heartbeat.ts:72-84 | one look moves the phase to where the elapsed time has settled, never back up |
| `Heartbeat.DecayTwice` | instruments/lucerna/src/heartbeat.ts:72-84 | two looks are one look at the later time |
| `Heartbeat.PollingNeverMatters` | instruments/lucerna/src/heartbeat.ts:27-50 | for nondecreasing read times the phase is that of a single read at the last one |
| `Governance.MergeGovernanceLists` | instruments/lucerna/src/governance.ts:124-135 | the lists hold the shipped patterns plus exactly the user's in both roles, each once, and nothing widens the writable list |
| `Governance.WritableIff` | instruments/lucerna/src/governance.ts:205-236 | a path may be written iff it is in the house, no user pattern covers it, and it is the runtime residual or covered by a writable and no protected pattern |
| `Governance.DirectoryMatch` | instruments/lucerna/src/governance.ts:145-151 | a directory pattern covers the directory and everything below it, and nothing else |
| `Governance.FileMatch` | instruments/lucerna/src/governance.ts:145-151 | a file pattern covers the file of that name in any directory, and nothing else |
| `Governance.RuntimePathIff` | instruments/lucerna/src/governance.ts:167-203 | the residual is a state file or artifact directly in the daemon's directory, never a charter file |
| `Governance.ArtifactIff` | instruments/lucerna/src/governance.ts:174-183 | artifacts are rotated logs, temporary files and drafts |
| `Governance.TopIsClosed` | instruments/lucerna/src/governance.ts:205-236 | by default nothing at the top of the house may be written but the forge itself |
| `Governance.ForgeIsOpen` | instruments/lucerna/src/governance.ts:205-236 | by default everything below the forge may be written except files named AGENTS.md or CLAUDE.md |
| `Governance.AfterCheckIsTheGuard` | instruments/lucerna/src/agentic.ts:590-609 | for merged lists the after-check flags a path iff the guard denies it |
| `Governance.WhenTheyDisagree` | instruments/lucerna/src/agentic.ts:590-609 | for arbitrary lists the two disagree iff the path is a runtime residual, matches an extra and is not protected |
| `Governance.UnmergedListsDisagree` | instruments/lucerna/src/agentic.ts:590-609 | such lists exist |
| `Governance.ExtrasOnlyDeny` | instruments/lucerna/src/governance.ts:205-236 | a path is writable under merged lists iff it is by default and no extra matches it |
| `Governance.MoreExtrasNeverWiden` | instruments/lucerna/src/governance.ts:124-236 | adding extras never makes a path writable |
| `Governance.DiffInventories` | instruments/lucerna/src/agentic.ts:540-554 | added and modified are exactly the new paths and those with another time |
| `Governance.PorcelainPathIs` | instruments/lucerna/src/agentic.ts:575-585 | a porcelain entry's path is what follows its status, unquoted, with forward slashes |
| `Governance.RenamedPathIs` | instruments/lucerna/src/agentic.ts:575-585 | of a renamed porcelain entry the new name is checked |
| `Governance.CheckGovernanceBreaches` | instruments/lucerna/src/agentic.ts:611-643 | the breaches are exactly the flagged paths among added, modified and porcelain entries |
| `Streams.SplitSound` | crates/codegen/xai-acp-lib/src/line_reader.rs:136-177 | the line split of a stream loses nothing and yields lines |
| `Streams.SplitUnique` | crates/codegen/xai-acp-lib/src/line_reader.rs:136-177 | any division of a stream into lines is that split |
| `LineReader.ReadLineCapped` | crates/codegen/xai-acp-lib/src/line_reader.rs:138-177 | succeeds iff the first line fits the cap, returns exactly that line whatever the fill sizes, consumes just it, and never holds more than the cap plus one fill |
| `LineReader.PollConserves` | crates/codegen/xai-acp-lib/src/line_reader.rs:85-134 | a poll hands out no more than fits and conserves every byte |
| `LineReader.PollIsExact` | crates/codegen/xai-acp-lib/src/line_reader.rs:85-134 | Pending iff nothing is stashed or queued and the task runs; an error iff one is next; zero bytes only at the end |
| `LineReader.QueueIsBounded` | crates/codegen/xai-acp-lib/src/line_reader.rs:51-82 | however slow the consumer, the queue stays within its capacity |
| `LineReader.LineBufferedRead.PollRead` | crates/codegen/xai-acp-lib/src/line_reader.rs:85-134 | the in-place buffer and cursor behave as the pure poll |
| `LineReader.RunKeeps` | crates/codegen/xai-acp-lib/src/line_reader.rs:51-134 | every interleaving, chunking and sequence of buffer sizes keeps: lines taken, held and to come are the lines of the stream |
| `LineReader.BytesAreConserved` | crates/codegen/xai-acp-lib/src/line_reader.rs:51-134 | served, stashed, queued, partial and unread bytes always add up to the stream, in order |
| `LineReader.PendingOnlyBetweenLines` | crates/codegen/xai-acp-lib/src/line_reader.rs:85-134 | Pending only when the served bytes are empty, end in a newline, or are the whole stream |
| `LineReader.EndAndErrorsAreExact` | crates/codegen/xai-acp-lib/src/line_reader.rs:85-134 | a zero read into a non-empty buffer means end of stream; an error means the next line cannot be produced and all earlier ones were served |
| `LineReader.DrainedExactly` | crates/codegen/xai-acp-lib/src/line_reader.rs:51-177 | from every reachable state a bounded number of fills, sends and reads serves the whole stream or reports an error with all earlier lines served, and it is the error iff the source fails or some line is too long |
| `StdinReader.ThreadReader.PollRead` | crates/codegen/xai-acp-lib/src/stdin_reader.rs:143-161 | draining the unread buffer behaves as the same pure poll |
| `StdinReader.ThreadConserves` | crates/codegen/xai-acp-lib/src/stdin_reader.rs:114-161 | the same conservation law over every interleaving, read size and interruption |
| `StdinReader.ThreadErrorsAreReal` | crates/codegen/xai-acp-lib/src/stdin_reader.rs:114-141 | an error is reported only if some read failed, interruptions being retried; chunks and queue are bounded |
| `StdinReader.ReadIsPassedOn` | crates/codegen/xai-acp-lib/src/stdin_reader.rs:114-141 | an interrupted read changes nothing, a failed one becomes an error, a good one hands on what it read |
| `Gateway.AcpGateway.ForwardWithCompletion` | crates/codegen/xai-acp-lib/src/gateway.rs:336-348 | the completion belongs to the message just offered |
| `Gateway.AcpGateway.ForwardFireAndForget` | crates/codegen/xai-acp-lib/src/gateway.rs:350-359 | true iff the message was accepted |
| `Gateway.AcpGateway.DispatchPending` | crates/codegen/xai-acp-lib/src/gateway.rs:232-308 | every queued message is spawned, in order |
| `Gateway.ExactlyOnePlace` | crates/codegen/xai-acp-lib/src/gateway.rs:232-334 | an accepted message is in exactly one of channel, live task, finished or lost |
| `Gateway.RunKeeps` | crates/codegen/xai-acp-lib/src/gateway.rs:232-334 | in every reachable state each message is accounted for once and each completion tells its fate |
| `Gateway.CompletionsAreExact` | crates/codegen/xai-acp-lib/src/gateway.rs:142-167 | answered iff the handler finished, dropped iff refused, discarded or its task died, unresolved iff still queued or running |
| `Gateway.ResolvedBatchHasFinished` | crates/codegen/xai-acp-lib/src/gateway.rs:594-695 | while the loop runs nothing is lost, and once a batch's completions have resolved all its handlers have finished, under any scheduler |
| `Gateway.DroppedLoopResolvesUnrun` | crates/codegen/xai-acp-lib/src/gateway.rs:142-167 | a dropped loop resolves a completion whose handler never ran |
| `Gateway.EffectsInEnqueueOrder` | crates/codegen/xai-acp-lib/src/gateway.rs:594-695 | with first-in-first-out tasks that do not suspend, effects happen in enqueue order across all senders |
| `Gateway.OvertakingReorders` | crates/codegen/xai-acp-lib/src/gateway.rs:48-57 | a spawner that lets a task overtake breaks that order |
| `Gateway.EverythingIsDelivered` | crates/codegen/xai-acp-lib/src/gateway.rs:232-308 | from every reachable state with the loop running, one turn per queued message and one run per task, under any scheduler, deliver everything accepted but what an abort had lost |
| `Wait.RunKeeps` | crates/codegen/ptyctl/src/wait.rs:90-122 | every interleaving of feeder, resizer and waiter keeps the protocol's invariant |
| `Wait.NoLostWakeup` | crates/codegen/ptyctl/src/wait.rs:90-122 | a parked waiter that has seen the current generation, sender alive and no bump pending, has a false condition on the current grid |
| `Wait.MatchedMeansMet` | crates/codegen/ptyctl/src/wait.rs:94-109 | a wait is reported as matched only when the grid, under the lock, meets the condition |
| `Wait.FedGridMatches` | crates/codegen/ptyctl/src/wait.rs:90-122 | from every reachable state with the feeder at work, output that meets the condition ends the wait in success |
| `Wait.DeadlineEndsWait` | crates/codegen/ptyctl/src/wait.rs:117-119 | past the deadline a wait ends as soon as one check can be made |
| `Wait.GoneEndsWait` | crates/codegen/ptyctl/src/wait.rs:110-116 | once the sender is gone a wait ends within two turns of its loop |
| `Wait.ReportIsFinal` | crates/codegen/ptyctl/src/wait.rs:90-122 | a report is never taken back |
| `Wait.QuiescentGridMatches` | crates/codegen/ptyctl/src/wait.rs:90-122 | once the condition holds on a quiescent grid, three waiter steps return matched |
| `Wait.EndedIsWrongIff` | crates/codegen/ptyctl/src/wait.rs:110-115 | a wait reported as ended is wrong about the grid iff a resize after the sender was gone set a grid that meets the condition |
| `Wait.LateResizeIsMissed` | crates/codegen/ptyctl/src/session.rs:272-283 | from every reachable state with an up-to-date parked waiter and the feeder gone, a resize to any grid goes unnoticed and the wait ends on that grid |
| `Wait.SilentResizeIsMissed` | crates/codegen/ptyctl/src/session.rs:272-283 | such a state is reached, and a wait that should have matched ends |
| `StableWait.WaitStable` | crates/codegen/ptyctl/src/wait.rs:125-158 | against any runtime: at most two selects more than the changes seen, and at most one, a sleep, after the sender is gone; matches only when a full window has passed since the last change seen, ending by the deadline, with a change in it unseen only if the waiter did not run; a time-out is marked ended iff the sender was seen gone |
| `StableWait.RawTail.Push` | crates/codegen/ptyctl/src/wait.rs:195-206 | the tail becomes the last 2048 bytes of tail and input |
| `StableWait.TailIsSuffix` | crates/codegen/ptyctl/src/wait.rs:195-206 | however the output was chunked, the tail is the last 2048 bytes of all of it |
| `ImageFiles.ParseImageFilesPaths` | crates/codegen/xai-chat-state/src/compaction_image_context.rs:84-93 | the paths of every closed block in turn |
| `ImageFiles.NumberedPathIs` | crates/codegen/xai-chat-state/src/compaction_image_context.rs:95-99 | a line lists a path iff, trimmed, it is digits, a full stop, a space and the path |
| `ImageFiles.ScrubForEnvelope` | crates/codegen/xai-chat-state/src/compaction_image_context.rs:174-185 | every character scrubbed in order |
| `ImageFiles.ImageFilesBlock` | crates/codegen/xai-chat-state/src/compaction_image_context.rs:161-172 | lead, numbered scrubbed paths and trailer inside the tags |
| `ImageFiles.BlockSays` | crates/codegen/xai-chat-state/src/compaction_image_context.rs:161-172 | the opening tag and lead on lines of their own, the paths, the trailer, the closing tag |
| `ImageFiles.LinesAreNumbered` | crates/codegen/xai-chat-state/src/compaction_image_context.rs:161-172 | the path lines are numbered from one up, in order |
| `ImageFiles.ScrubIs` | crates/codegen/xai-chat-state/src/compaction_image_context.rs:174-185 | brackets become look-alikes, control characters go, every other character stays |
| `ImageFiles.BlockIsBlock` | crates/codegen/xai-chat-state/src/compaction_image_context.rs:161-185 | no path content closes a rendered block early |
| `ImageFiles.EnvelopeRoundTrip` | crates/codegen/xai-chat-state/src/compaction_image_context.rs:84-185 | after any prefix with no open tag and before any suffix, a rendered block reads back as its scrubbed, trimmed, non-blank paths in order, followed by the suffix's |
| `ImageFiles.RoundTripIsIdempotent` | crates/codegen/xai-chat-state/src/compaction_image_context.rs:84-185 | rendering what was parsed and parsing it again changes nothing |
| `ImageFiles.CleanPathsFixed` | crates/codegen/xai-chat-state/src/compaction_image_context.rs:84-185 | clean paths come through unchanged |
| `ImageFiles.ExtractIsBlock` | crates/codegen/xai-chat-state/src/compaction_image_context.rs:28-39 | what the extractor returns opens with the tag and has its only closing tag at its end |
| `ImageFiles.BlockIsRead` | crates/codegen/xai-chat-state/src/compaction_image_context.rs:84-99 | every path of a closed block is read, wherever the block stands and whatever surrounds it |
| `Compaction.DedupNewestFirst` | crates/codegen/xai-chat-state/src/compaction_image_context.rs:105-139 | the backwards walk with a seen set keeps each path once, at its latest position |
| `Compaction.RecollectExactly` | crates/codegen/xai-chat-state/src/compaction_image_context.rs:105-139 | collecting a collected list with carried paths after it gives the old list without them, then them |
| `Compaction.CompactionKeepsImagesIff` | crates/codegen/xai-chat-state/src/compaction_utils.rs:640-656 | one compaction of any history, with any query, summary and kept items: the new list is the old one without the carried paths, then the carried paths; no path is lost or invented, and the list is unchanged iff it already ended in the carried paths |
| `Compaction.QueryKeepsShape` | crates/codegen/xai-chat-state/src/compaction_image_context.rs:62-80 | the re-added query carries the last turn's block once, whether it came out of its wrapper or already holds the block |
| `Compaction.QueryIsKept` | crates/codegen/xai-chat-state/src/compaction_image_context.rs:62-80 | the re-added text is the whole query, wrapped, after its block unless it holds it |
| `Compaction.CompactedHolds` | crates/codegen/xai-chat-state/src/compaction_utils.rs:930-992 | no item to keep is dropped, and the note stands right after the summary |
| `Compaction.CompactKeeps` | crates/codegen/xai-chat-state/src/compaction_utils.rs:920-992 | in a session where the summary may echo the last turn's images, a compaction keeps the list iff moving the last turn's paths to the end leaves them where they were |
| `Compaction.NothingSinceIsUnmoved` | crates/codegen/xai-chat-state/src/compaction_image_context.rs:105-139 | when nothing listed images since the last turn, that condition holds |
| `Compaction.InterjectedImageMoves` | crates/codegen/xai-chat-state/src/compaction_image_context.rs:105-139 | an image interjected after the last turn's image changes places with it |
| `Compaction.ImagesSurviveCompactions` | crates/codegen/xai-chat-state/src/compaction_image_context.rs:62-169 | after any turns, interjections, replies and compactions exactly the paths ever listed are listed; and where no compaction moved the last turn's, as in the whole conversation: each once, at its latest position |
| `Compaction.PromptIsOrdinary` | crates/codegen/xai-chat-state/src/compaction_image_context.rs:141-151 | a rendered prompt lists exactly its cleaned paths |
| `Compaction.ShippedIsPlain` | crates/codegen/xai-chat-state/src/compaction_image_context.rs:141-159 | the shipped tag, leads, trailer and query wrapper have the shape these results ask for |

## Left out

- Daylight saving, and the truncation of stored timestamps to seconds: instants are integer milliseconds and days have equal length.
- Negative or fractional token counts: envelopes are natural numbers.
- Paths that throw out of a dream cycle, which leave the cycle marked active.
- The command that runs an action ignoring budgets, which bypasses the caps on purpose.
- Reason texts, notifications, logs, reports, manifests and the saved display record apart from its state, reason code and resumption time.
- Resolution of the caps and cooldown knobs other than the reserve, and of the enablement flags: finite tables.
- Warnings collected while reading the charter, and the roster's display entries.
- Reading of a planner reply as JSON: a reply arrives as an action and a reason, or as nothing.
- `Daemon.RunDaemon`: limits stay fixed over a run and no record is dated before its gate; rosters, flags, outcomes and the clock between ticks are free.
- `AutoCommit.Run`: the patterns for dangerous paths and the hash are parameters, and the draft text is not modelled.
- `Display.ResumptionIsExact`: the snapshot and the display are taken at one instant, with no override of the reason, and stored dates are keys the program itself writes.
- Resolution of paths against the house root: governance paths arrive relative, with forward slashes.
- Dropping of the line reader before the end of the stream, and its task's panics.
- Normalization of standard input lines and the line-forwarding thread.
- Renderings of the terminal grid: the grid is an opaque value, and a condition any predicate on it.
- The wording around envelopes and queries: it enters as a `Format` with the shape the shipped wording has.
- Extraction of the last query from its item, the limit on attached paths, and the check that attached files exist: the query and the kept items are inputs.
- `Compaction.CompactionKeepsImagesIff`: the paths put into the note are clean, that is, come through the printer unchanged.
- `Compaction.ImagesSurviveCompactions`: turns hold at most one block and no stray opening tag, and kept items other than the query and the summary list no images; what happens otherwise is `CompactionKeepsImagesIff`, one compaction at a time.
- White space is Rust's set in every module; JavaScript's differs in two characters (U+0085 and U+FEFF).
