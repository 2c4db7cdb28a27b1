# codex-wake, modelled and proved in Dafny

codex-wake supervises native agent threads. Its acceptance and maintenance scripts hold real
protocols: a runner that may spend a model allowance only once and must leave nothing behind,
a worktree retirement that survives a crash after any step, a settlement that may touch only
what it can prove to own, request fixtures whose logs are evidence, and a few parsers on which
a release depends. This project models that code and proves what it is for, over every answer
of the outside world, every request sequence and every input.

Run `dafny verify dfyconfig.toml` to check it all.

## How it is modelled

The outside world is a function of everything that was asked before (`Native.World` for the
RPC, the status reader and the clock; `Inspection.Host` for files, processes and git). A
statement about every world is a statement about every server, every failure and every
schedule. Answers are arbitrary JSON values, so nothing is assumed about their shape; `Err`
stands for a raised exception. Histories are append-only, so a crash leaves a prefix. Readings of
the clock and sleeps are events of the history too, so that what a run did, how often its loops
went round and why each was left can be read off its history alone. Time is a real number that
never falls, may jump by any amount, and grows by a fifth of a second at least over a sleep.

The names of fields and the words that the scripts look for in JSON are numbered in `Word`, and
the words of a worktree entry are datatypes; every other text keeps its own value there.

Methods have the loops and the mutated state of the scripts. Each is proved against a function
of its inputs or against a predicate on its history, and the main results are lemmas about
those. What such a function makes of a reply, a report, a name or a request is also stated
without it, in the fields and the characters themselves (the lemmas whose names end in `Is`).

| modules | what they hold |
|---|---|
| `Word`, `Values`, `Native`, `Text` | JSON and exceptions; the world and its clock; searching, splitting and joining |
| `Cleanup`, `PagedReads`, `CleanupOrder`, `CleanupProperties`, `CooperativeServer` | the runner's cleanup and its paged reads: bounds, order of effects, soundness, completeness, and a server that meets the conditions of completeness |
| `Receipts`, `Readings`, `AcceptanceSetup`, `AcceptancePolling`, `AcceptanceOperator`, `Acceptance` | the readings of the runner and what they mean, and the runner itself, phase by phase: the gates before the dispatch, the loop to the pause, the operator's turn with the final accounting, and the whole |
| `AcceptanceProperties`, `AcceptanceAllowance` | what every run and every passing run has done, on the whole history |
| `PassingRun`, `GoodScript` | worlds in which the run passes |
| `Registrations`, `Observation`, `Inspection`, `InspectionProperties` | what is observed of a worktree: on a host that stands still, step by step on one that does not, and what the readings of each step were |
| `Retirement`, `RetirementProperties`, `WorkingHost` | its custody-bound retirement: plan, lock, apply, crash safety, and a host on which it succeeds |
| `Settlement`, `SettlementSucceeds`, `SettlingServer` | settlement of an owned successor, when it succeeds, and a server with which it does; and the call of a source tool |
| `FixturePhases`, `FixtureRequests`, `Sessions`, `ProcessTree` | the journey fixture, the two session stores, and the owned-process census |
| `Lockfile`, `PolicyWiring`, `CiScope` | the lock rewrite, the policy check and the CI lane |
| `Ntp` | the admission of an NTP reply |

## What the code does that its description does not say

- An empty thread identity is accepted by `run`, which then takes it for no thread, skips the cleanup
  and says in its result that cleanup is verified. `Acceptance.Run` gives the exact condition, and
  `GoodScript.PassesWithoutCleanup` is such a run: it activates a goal, starts a turn and passes.
- The lock rewrite is idempotent exactly when no block without a source line has two placeholders,
  or the version is 0.0.0; `Lockfile.RewriteTwice` is the equivalence and
  `Lockfile.DoubledChangesAgain` a text on which it fails.
- A fork copies all the turns that the source has by then, not those up to the turn it names. It keeps
  to that turn exactly when the source was not prompted before (`Sessions.ForkKeepsToItsTurn`);
  `Sessions.ForkTakesLaterTurn` shows two requests after which it does not.
- The wrong-origin control is told from a right one only if the random token is not all zero, and
  the reply of every control would be refused even without its fault, because its timestamps are
  zero (`Ntp.ControlsRefused`, `Ntp.FaultlessRefused`).
- The phases of the journey fixture stay in order whether or not the operator flag is monotone.
- No profile source is ever compared with the file on disk, but agreement follows
  (`PolicyWiring.NothingWrongIffWired`).

## Model

| member | source | states |
|---|---|---|
| `Acceptance.Run` | scripts/goal_supervision_real_acceptance.py:98-215 | In every world the history is lawful: each phase makes only its own calls, on the started thread, goes on exactly when its gate holds and stops exactly where a call failed, a reading was refused or time was up. In particular the pause is taken only where the goal was read paused and no turn was read in progress. The run passes if and only if all phases have done their work and the cleanup, if there is a thread to clean up, is verified; there is none exactly for a missing or empty identity. The usage reported is that of the last status read. The rounds of all loops in the history are 5*max(1,seconds)+2 at most |
| `GoodScript.Passes` | scripts/goal_supervision_real_acceptance.py:98-215 | For all approved options, with and without an observer, there is a server and a clock with which the run passes and its cleanup is verified |
| `GoodScript.PassesWithoutCleanup` | scripts/goal_supervision_real_acceptance.py:126-213 | And there is one that answers with an empty identity: the run dispatches, does all its work and passes, and its history has no call of a cleanup |
| `PassingRun.RunPasses` | scripts/goal_supervision_real_acceptance.py:98-215 | Whatever the thread, the status, the goal, the turns and the replay are in particular, as long as each meets its gate, the run passes, and cleans up exactly if the identity is not empty |
| `AcceptanceProperties.WorkStartsOnce` | scripts/goal_supervision_real_acceptance.py:106-149 | In every run's history a thread is started, a goal activated and a turn started at most once each and in that order, and every other call names the started thread |
| `AcceptanceProperties.ActivatedIffGatesHold` | scripts/goal_supervision_real_acceptance.py:128-149 | The goal is activated if and only if permissions, MCP version and schema, history home, fresh controller and the blocked goal read back all held |
| `AcceptanceAllowance.TurnStartedOnlyWhenPaused` | scripts/goal_supervision_real_acceptance.py:154-174 | In every run, passing or not, that starts the operator's turn: the first status after the activation that did not say the thread is not enrolled yet has enrolled it, every status from there to the turn was qualified under that one and the usage never fell; later a status acknowledged the checkpoint, then the goal was read with the status paused and the thread with a list of turns none of which was in progress, then the checkpoint file was there |
| `AcceptanceAllowance.PassedKeepsAllowance` | scripts/goal_supervision_real_acceptance.py:84-95 | In a run that has done its work the enrollment is by the first status after the activation that did not say the thread is not enrolled yet; every status read from there on, in the whole history, is qualified and has the allocation, generation, deadline and caps of that one, and the usage never falls up to the pause |
| `AcceptanceAllowance.OneEnrollment` | scripts/goal_supervision_real_acceptance.py:154-162 | A history has no two enrollments after its activation |
| `AcceptanceAllowance.PassedWasAnswered` | scripts/goal_supervision_real_acceptance.py:174-182 | In a run that has done its work the very turn that was started was later read completed with the exact answer, and the next call read the goal still paused |
| `AcceptanceAllowance.PassedReportsLastUsage` | scripts/goal_supervision_real_acceptance.py:183-200 | In a run that has done its work the usage reported is that of the last status ever read; with an observer, a qualified raw replay of the same usage came right before it |
| `AcceptanceSetup.Setup` | scripts/goal_supervision_real_acceptance.py:106-149 | The setup asks its calls in order and stops exactly where a call failed or a gate was refused; it is ready exactly when all gates held and the goal was activated |
| `AcceptanceSetup.QualifyMcp` | scripts/goal_supervision_real_acceptance.py:130-137 | Goes on exactly when one server of the name has the expected version, tools and schema |
| `AcceptanceSetup.SetGoal` | scripts/goal_supervision_real_acceptance.py:144-147 | Passes exactly when the goal reads back as set, blocked and on this thread |
| `AcceptancePolling.PollStatus` | scripts/goal_supervision_real_acceptance.py:152-166 | A round that goes on has read a qualified status whose usage is at least the last one, or one that is not enrolled yet; enrollment is the first armed status; every other reading is refused |
| `AcceptancePolling.Poll` | scripts/goal_supervision_real_acceptance.py:150-173 | In the history of the outer loop each round is lawful in view of what exactly the rounds before have told: the enrollment, the last usage and whether the checkpoint was acknowledged. A round that goes on after its reads has read the goal in another status, or some turn in progress. Each began in time and all but the last went on. The loop ends well exactly if the last round took the pause, else in a refusal or too late |
| `AcceptancePolling.PausedInIs` | scripts/goal_supervision_real_acceptance.py:167-170 | The pause is seen exactly if the goal has the status paused and every turn has a status, none in progress; the work is seen to go on exactly if the goal has another status, or is paused while some turn is in progress |
| `AcceptanceOperator.CompletedTurnIs` | scripts/goal_supervision_real_acceptance.py:176-180 | The answer is seen exactly if the first turn of the identity is completed and an agent message in it says what was asked for; it is awaited exactly if there is no such turn or the first has another status |
| `Readings.QualifiedIs` | scripts/goal_supervision_real_acceptance.py:84-95 | A status is qualified exactly if it is armed or asked for a checkpoint and not latched, or stopped because the allocation is proved to be used up; with a fresh controller, a qualified accounting, the caps of the options and the three fields of the enrollment |
| `Readings.McpInstalledIs` | scripts/goal_supervision_real_acceptance.py:132-137 | The server is installed exactly if one row of the catalog has its name, in the expected version, with both tools and the three names in the schema |
| `AcceptanceOperator.AwaitReply` | scripts/goal_supervision_real_acceptance.py:174-182 | Success exactly if the last round read the operator's turn completed with the exact answer, then the goal paused, and recorded it; all rounds before read the turn as pending, and the loop is left else only by a refusal or too late |
| `AcceptanceOperator.AuditUsage` | scripts/goal_supervision_real_acceptance.py:186-196 | The audit ends five seconds after it began or with the run, whichever comes first. Success exactly if the last replay is qualified and equals the status read right after it; all rounds before were qualified and did not agree, and the loop is left else only by a refusal or too late |
| `AcceptanceOperator.Conclude` | scripts/goal_supervision_real_acceptance.py:183-200 | The accounting is done exactly if the last status is qualified, was reconciled when there is an observer, was saved and has a usage, which is then the result |
| `Cleanup.Turns` | scripts/goal_supervision_real_acceptance.py:44-54 | The loop does what `AllTurns` says, in every world |
| `PagedReads.AllTurnsFollowsPages` | scripts/goal_supervision_real_acceptance.py:44-54 | Against any server: at most 32 requests, no cursor sent twice, each cursor the one just received, and rows returned only after a page without a next cursor, being those of all pages in order |
| `PagedReads.FixedChain` | scripts/goal_supervision_real_acceptance.py:44-54 | On a fixed chain of pages the rows are returned if and only if the chain ends within 32 pages without an empty or repeated cursor, and are then the exact concatenation |
| `CleanupOrder.PausesExactlyIfActive` | scripts/goal_supervision_real_acceptance.py:60-62 | Whatever the server answers, the goal is paused, and not automatically, if and only if it was read active |
| `CleanupOrder.InterruptsInOrder` | scripts/goal_supervision_real_acceptance.py:63-66 | Whatever the server answers, the interrupts go to the running turns in their order, each after the one before was answered; it ends at the first that fails, or the first turn that cannot be read, and reports exactly what was done |
| `CleanupOrder.TerminationsInOrder` | scripts/goal_supervision_real_acceptance.py:69-73 | And the terminations to the listed processes, up to the first that fails or has no name |
| `CleanupOrder.NothingAfterFailure` | scripts/goal_supervision_real_acceptance.py:57-81 | The first call that fails is the last one, and the cleanup is then not verified |
| `CleanupOrder.CleanedInParts` | scripts/goal_supervision_real_acceptance.py:57-81 | Whatever the server answers, goal and pause come first, then the listing of the turns, then the interrupts, then the processes, then the readback, and nothing of one part comes among another |
| `CleanupOrder.IncompleteListingIsLeft` | scripts/goal_supervision_real_acceptance.py:67-68 | If the processes are not listed completely none is terminated, and the cleanup is not verified |
| `Cleanup.Cleanup` | scripts/goal_supervision_real_acceptance.py:57-81 | History and proof are those of `Cleaned`, also when a step raises |
| `CleanupProperties.VerifiedMeansSettled` | scripts/goal_supervision_real_acceptance.py:74-79 | Soundness: with a truthful server that reading does not change, a verified cleanup leaves no turn in progress, no background terminal and no active goal |
| `CleanupProperties.CooperativeIsVerified` | scripts/goal_supervision_real_acceptance.py:57-81 | Completeness: with a cooperative server, at most 32 pages and nameable turns and processes, cleanup is verified, interrupts exactly the turns first seen running and ends exactly the listed processes |
| `CleanupProperties.CleanedContinues` | scripts/goal_supervision_real_acceptance.py:57-81 | Whatever the server answers, cleanup only reads, pauses, interrupts and terminates, on the one thread |
| `CleanupProperties.InterruptsEveryRunningTurn` | scripts/goal_supervision_real_acceptance.py:63-66 | The interrupts are exactly the running turns' identities in order, and afterwards none runs |
| `CleanupProperties.TerminatesEveryProcess` | scripts/goal_supervision_real_acceptance.py:69-73 | The terminations are exactly the listed processes in order, and afterwards none is left |
| `CooperativeServer.CleanupSucceeds` | scripts/goal_supervision_real_acceptance.py:57-81 | A concrete server meets the conditions of completeness from every cleanable state of its thread, so cleanup succeeds there |
| `Registrations.ParsePrinted` | scripts/cleanup_worktrees.py:30-39 | Round trip: printing worktree rows as porcelain and parsing them gives the rows back, for nonempty keys without blanks and values without line breaks |
| `Observation.CensusDropsNothing` | scripts/cleanup_worktrees.py:42-70 | On a host that stands still the census is complete without references if and only if every surface of every process can be read, or is missing with its process, and none points into the target |
| `Observation.ReferenceReviewIs` | scripts/cleanup_worktrees.py:73-102 | A review is given exactly if the file is trusted, the report is of this repository and one entry names the target; it is in use exactly if one of the three lists of that entry is not empty, and complete exactly if it was reviewed, has an owner and all three are lists of names |
| `Observation.EveryReasonIsNamed` | scripts/cleanup_worktrees.py:134-148 | Each reason is named exactly when it holds, and no other is |
| `Observation.MatchingRowsIs` | scripts/cleanup_worktrees.py:110-112 | The registration is accepted exactly if one row names the target |
| `Observation.WithinIs` | scripts/cleanup_worktrees.py:61 | A link points into the target exactly if it is the target, or goes on from it behind a slash |
| `Inspection.TakeCensus` | scripts/cleanup_worktrees.py:42-70 | In every world the scanning loops, with the links read before an error kept, make exactly the looks of `CensusSeen` and give its result, each reading being of the host as it was at that step |
| `InspectionProperties.CensusReadings` | scripts/cleanup_worktrees.py:42-70 | Whatever processes come and go meanwhile: the census is complete without references if and only if the processes were listed, every surface of every listed process was then read, and no reading found a link into the target or hid one, a missing link being passed over only after its process was seen gone |
| `Inspection.CensusWhenSteady` | scripts/cleanup_worktrees.py:42-70 | On a host where nothing read of the target changes meanwhile it is `CensusOf` the state |
| `Observation.EligibleIffRetirable` | scripts/cleanup_worktrees.py:134-170 | A target is eligible if and only if custody matches, it is not locked, clean, reviewed, unreferenced and fully visible; the action follows its presence |
| `Inspection.Observe` | scripts/cleanup_worktrees.py:105-170 | In every world it makes exactly the looks of `ObservationSeen`, and nothing but looks, and the entry is made of what they showed at their own steps; if nothing read of the target changes meanwhile the entry is `Observed` of the host |
| `InspectionProperties.EligibleReadings` | scripts/cleanup_worktrees.py:105-170 | In every world an observation that finds the target eligible has read, in this order: no symlink, one unlocked registration, no protected checkout, a custody ref at its head, a trusted report whose one entry about the target is reviewed by an owner and names no service, no build and no evidence, and either absence, or a clean status and a census whose every reading was clear |
| `Retirement.MakePlan` | scripts/cleanup_worktrees.py:285-301 | In every world the plan file is made of what was seen at its steps, and nothing but the new file is written; on a host unchanged meanwhile it is written if and only if the target can be observed and the file goes outside, and is the plan of the observation |
| `Retirement.ExternalIs` | scripts/cleanup_worktrees.py:183-187 | A file is outside exactly if it is neither the source nor the target and lies below neither |
| `Retirement.Check` | scripts/cleanup_worktrees.py:190-211 | In every world the checks look, take the lock, and then observe afresh, exactly as `ChecksSeen` says; they pass if and only if the plan is authorised, the receipt goes outside, the lock was granted and what was seen under it is the planned entry |
| `Retirement.Apply` | scripts/cleanup_worktrees.py:190-265 | Nothing but looking happens unless the checks passed, and they pass exactly as `ChecksSeen` says; every history it leaves is a prefix of reserve, pending receipt, removal, readback and last receipt; once the removal was issued the readback decides the last receipt and the exit code, and only an exception that is not caught leaves the pending receipt in place |
| `RetirementProperties.RemovalUnderLock` | scripts/cleanup_worktrees.py:204-234 | In every world a removal is issued at most once and for the planned target, after the lock was granted, everything there is to read of the target was read anew under the lock and each reading spoke for retiring it, and the pending receipt was written through; no second lock is ever taken |
| `Retirement.Verify` | scripts/cleanup_worktrees.py:236-248 | The result is that of the readings after the removal: true exactly if exit zero, unregistered target, custody ref at the head and absent path were read back, false or an error otherwise |
| `RetirementProperties.CrashLeavesTruth` | scripts/cleanup_worktrees.py:212-263 | After every prefix of every history: if the removal was issued, a receipt created by this call is on disk, and it says FAIL and unknown unless the four readings were made |
| `RetirementProperties.ConfirmedIs` | scripts/cleanup_worktrees.py:236-248 | The readback confirms exactly if exit zero, no row of the target, the custody ref at the planned head and no path were read, each at its own step, and is unknown exactly if one of the readings failed |
| `RetirementProperties.OutcomeTells` | scripts/cleanup_worktrees.py:249-262 | The last receipt is of the planned entry; it passes exactly a confirmed readback and then says gone or pruned as the target was there or not, and otherwise says why nothing is decided |
| `RetirementProperties.PassMeansRetired` | scripts/cleanup_worktrees.py:236-254 | If nothing else changes what is read of the target, a written pass means it is unregistered and absent and the custody ref is at the planned head |
| `RetirementProperties.AlteredPlanIsHeld` | scripts/cleanup_worktrees.py:193-196 | With an injective digest no payload but the approved one is ever authorised |
| `RetirementProperties.PlannedHolds` | scripts/cleanup_worktrees.py:190-211 | The plan made of an observation passes every check on the same host if and only if the target is retirable, the receipt goes outside and the repository answers |
| `RetirementProperties.PlanThenApply` | scripts/cleanup_worktrees.py:283-301 | Plan, approval and apply in a row on a host where nothing else changes what is read of the target issue the removal if and only if the plan can be made and the target is ready |
| `RetirementProperties.RetireNow` | scripts/cleanup_worktrees.py:190-301 | From every state in which the target can be planned and may go: if nothing else changes what is read of it and the removal works, plan, approval and apply exit with 0, and the target is unregistered and absent with its custody ref in place |
| `WorkingHost.Retires` | scripts/cleanup_worktrees.py:190-301 | There is a host that meets these conditions from every such state, so the retirement succeeds there |
| `Settlement.SettleOwnedSuccessor` | scripts/agent_handoff_acceptance.py:104-125 | History and result are those of `Settlement`, in every world |
| `Settlement.EffectsAreOwned` | scripts/agent_handoff_acceptance.py:104-125 | Every pause comes right after a read that showed the goal with the four fields of the one handed off and active, every interrupt right after a read that showed that turn as the only one in progress, with such a goal or carrying the submission; at most one turn is interrupted; a foreign goal ends it after one read, with an error |
| `Settlement.SettledIsQuiet` | scripts/agent_handoff_acceptance.py:111-125 | Against a truthful server normal return leaves no turn running and no active goal; the goal is still the one handed off, and the one reported |
| `SettlementSucceeds.SettlementCompletes` | scripts/agent_handoff_acceptance.py:104-125 | With a truthful and obedient server, a goal that is none or the one handed off, and no running turn or one that is ours, it returns normally: a pause is sent if and only if the goal is active, the running turn is interrupted exactly once and reported, nothing else is called but three reads, and the thread is left quiet |
| `SettlementSucceeds.NothingAfterFailure` | scripts/agent_handoff_acceptance.py:104-125 | Whatever the server answers, the first call that fails is the last one, and raises |
| `SettlingServer.Settles` | scripts/agent_handoff_acceptance.py:104-125 | A concrete server meets these conditions from every such state, so the settlement succeeds there |
| `Settlement.CallSourceTool` | scripts/agent_handoff_acceptance.py:69-82 | The tool is called if and only if the source was read paused and owned, resumed idle, and its goal read back unchanged; otherwise nothing follows the reading that was refused |
| `FixturePhases.Handler.DoPost` | scripts/goal_limit_native_ux_acceptance.py:218-274 | The handler's state and log after a request are those of `Post`, and the response follows the cap, the body and the phase |
| `FixtureRequests.EveryRequestGetsItsPhase` | scripts/goal_limit_native_ux_acceptance.py:218-274 | After every request sequence there is one call for each request that is not too large, and its phase is told by the requests before it: the first two that are no operator replies get warmup and enrollment, the third the work stream and the fourth, if it carries the steer, the continuation, both only before any reply; the replies after the start, from the enrollment on, get the three operator phases; all others are unexpected. The answer follows the body, the cap and the phase |
| `FixturePhases.AcceptedIsPartOfJourney` | scripts/goal_limit_native_ux_acceptance.py:224-266 | Whatever is requested, the accepted phases are an initial part of one journey, so each comes at most once and in order |
| `FixturePhases.EveryPartIsAccepted` | scripts/goal_limit_native_ux_acceptance.py:224-266 | And every initial part of every journey is what some requests get accepted |
| `FixturePhases.FinalCheckMeansJourney` | scripts/goal_limit_native_ux_acceptance.py:1578-1606 | The final count passes if and only if the cap was kept, the machine is done and the accepted phases are the whole journey |
| `FixturePhases.FinalCheckIs` | scripts/goal_limit_native_ux_acceptance.py:1578-1606 | Of any calls it asks that the cap was kept, that each phase is there exactly once, and the continuation exactly once or never, as the journey is |
| `FixturePhases.CallsAreNumbered` | scripts/goal_limit_native_ux_acceptance.py:231-274 | After every request sequence the calls are numbered from 1 without a gap, and each was answered as its number, body and phase demand |
| `FixturePhases.FinalCheckMeansServed` | scripts/goal_limit_native_ux_acceptance.py:1578-1606 | When the final count passes, a call was served exactly if its body parsed and its phase was an expected one; none was refused for the cap |
| `Sessions.Store.Handle` | scripts/controller_fork_acceptance.py:39-67 | On the heap, with turn objects shared by no two threads, the store after a request is `Apply` of the store before, and it raises exactly when the request is not acceptable |
| `Sessions.Store.CopyTurns` | scripts/controller_fork_acceptance.py:49 | The deep copy has new turn objects with the same contents |
| `Sessions.Store.StopTurn` | scripts/controller_foreach_acceptance.py:65-69 | The first turn of that name is interrupted or asked to stop, and the interrupt is logged, in the store that defers; nothing else changes |
| `Sessions.NamesStayFresh` | scripts/controller_foreach_acceptance.py:54-64 | After every request sequence the next thread name is unused and the turn names of a thread are distinct |
| `Sessions.PromptAppends` | scripts/controller_foreach_acceptance.py:58-62 | A prompt appends one turn to the one thread, with the next name, the status asked for and the answer to the text, and is logged |
| `Sessions.InterruptMarks` | scripts/controller_foreach_acceptance.py:63-67 | An interrupt changes the first turn of its name only: it is asked to stop if the store defers and the request says so, and is interrupted otherwise; only that store logs it |
| `Sessions.AcceptedIff` | scripts/controller_fork_acceptance.py:46-67 | A request raises exactly for an unknown thread, an interrupt of a turn that the thread does not have, or a fork of anything but the source at its first turn |
| `Sessions.LogRebuildsHistories` | scripts/controller_fork_acceptance.py:46-64 | After every request sequence replaying the effect log gives the turn names and texts of every thread |
| `Sessions.OtherThreadsKept` | scripts/controller_fork_acceptance.py:46-67 | A request leaves the turns of every thread it does not prompt or interrupt as they were |
| `Sessions.ForkStartsAsSource` | scripts/controller_fork_acceptance.py:46-52 | A fork starts as all the source's turns at that moment, under a new name, and source and fork never show each other's later changes |
| `Sessions.ForkKeepsToItsTurn` | scripts/controller_fork_acceptance.py:46-52 | A fork has the turns up to the one it names if and only if no request before prompted the source |
| `Sessions.ForkTakesLaterTurn` | scripts/controller_fork_acceptance.py:46-64 | After one prompt of the source, a fork that names the first turn has both |
| `ProcessTree.Owned` | scripts/goal_notice_native_acceptance.py:201-210 | The loop, whose passes read the set they extend, ends with the least set that has the roots and is closed under "the parent is owned" |
| `ProcessTree.OwnedIffDescendant` | scripts/goal_notice_native_acceptance.py:206-210 | That set is exactly the roots and their descendants |
| `ProcessTree.OwnedOrderFree` | scripts/goal_notice_native_acceptance.py:206-210 | And does not depend on the order of the process table |
| `ProcessTree.Signal` | scripts/goal_notice_native_acceptance.py:222-227 | Every recorded process whose identity still matches is signalled right after that reading, and no other is |
| `ProcessTree.RetireOwned` | scripts/goal_notice_native_acceptance.py:201-240 | The history is three parts. First every owned process is looked up once and recorded if it has an identity; then every recorded one is read again, once, and signalled right after exactly if it is still the same; then passes over all of them follow, 251 at most, each after one that left some, and those reported as remaining are exactly those that the last pass saw running; something remains only after five seconds |
| `ProcessTree.SignalledTwiceRead` | scripts/goal_notice_native_acceptance.py:211-227 | A signalled process is owned, its identity was read when all were recorded and read again, unchanged, right before the signal, and it gets no second one |
| `Lockfile.RewriteKeepsBlocks` | scripts/build_wake_client.py:65-67 | Splitting the rewritten text gives the same number of blocks in the same order, each normalized, and those with a source line unchanged |
| `Lockfile.NormalizedChangesOnePlaceholder` | scripts/build_wake_client.py:66-67 | A block with a source line or without a placeholder is kept; in every other one the first placeholder becomes the version line, and nothing else changes |
| `Lockfile.RewriteTwice` | scripts/build_wake_client.py:65-67 | Rewriting twice is rewriting once if and only if each block without a source line has at most one placeholder or the version is 0.0.0 |
| `Lockfile.DoubledChangesAgain` | scripts/build_wake_client.py:65-67 | For every version other than 0.0.0 a block with two placeholders is changed by a second rewrite |
| `Lockfile.LockFile.Normalize` | scripts/build_wake_client.py:63-70 | The file is left rewritten if it had the archived hash and as it was otherwise, and the result is true if and only if the file as it is left has the pinned hash |
| `Lockfile.GatePassesIff` | scripts/build_wake_client.py:63-70 | A file with neither hash is refused, and so is one whose rewrite does not have the pinned one |
| `Lockfile.GateTwice` | scripts/build_wake_client.py:63-70 | With an injective hash a build that passed leaves the file alone and passes again |
| `Text.JoinSplit` | scripts/build_wake_client.py:65-67 | Joining what was split gives the text back, for every separator |
| `Text.SplitJoin` | scripts/build_wake_client.py:65-67 | Splitting what was joined gives the blocks back, when no separator starts before the end of a block |
| `PolicyWiring.WrittenPointersFound` | scripts/check_policy_wiring.py:18 | Exactly the pointers written between quiet prose are found, in their order |
| `PolicyWiring.UnquotedIsQuiet` | scripts/check_policy_wiring.py:18 | Prose without a back-quote is quiet, so that between such prose exactly the written pointers are found |
| `PolicyWiring.FoundIsQuoted` | scripts/check_policy_wiring.py:18 | Whatever is found is a pointer and stands between back-quotes in the text |
| `PolicyWiring.UnnumberedIs` | scripts/check_policy_wiring.py:28 | A number and its hyphen are taken off a name, and nothing else is |
| `PolicyWiring.Check` | scripts/check_policy_wiring.py:12-56 | Every error reported is true of the repository; with AGENTS.md every true error about pointers and identities is reported, and with a manifest that can be read to its end every true error at all; there is no error if and only if the repository is wired |
| `PolicyWiring.CheckManifest` | scripts/check_policy_wiring.py:31-55 | Raises exactly when a key is missing or a canonical file cannot be read; otherwise reports exactly what is wrong |
| `PolicyWiring.NothingWrongIffWired` | scripts/check_policy_wiring.py:12-56 | Nothing is wrong if and only if pointers are a permutation of the policies, names differ, the inventory is a permutation with true hashes, and every profile source carries the hash of the file on disk |
| `CiScope.Classify` | scripts/check_ci_scope.py:14-48 | For every list of changes in git's NUL form the decision is that of `Decision`, every failure gives the full lane, and `Docs` is given only for the printed form of ordinary changes |
| `CiScope.Decision` | scripts/check_ci_scope.py:28-47 | `Docs` if and only if there is a change and all are ordinary evidence files, added or modified; else the objection to the first that is not |
| `CiScope.SuffixIs` | scripts/check_ci_scope.py:34-36 | The suffix of a path is the last dot of its last component and what follows, when neither side of the dot is empty |
| `CiScope.RefusalIs` | scripts/check_ci_scope.py:35-46 | Each reason against a file is given exactly when its own check fails and those before it hold |
| `CiScope.ComparedIs` | scripts/check_ci_scope.py:22-25 | What is compared is the change from the commit of the base to that of the head |
| `CiScope.CheckFields` | scripts/check_ci_scope.py:29-47 | The loop that takes fields off the list decides what `Scan` says |
| `CiScope.ScanPrinted` | scripts/check_ci_scope.py:29-47 | On printed changes the loop decides record by record, so the second path of a renaming is never read as a status |
| `CiScope.OrdinaryData` | scripts/check_ci_scope.py:25-47 | Any data that passes is the printed form of some ordinary changes |
| `Ntp.ReplyAdmittedIffAdmissible` | prototypes/qualify_clock_sources.py:28-42 | A reply is admitted if and only if it has 48 bytes and the fields in its header are admissible: leap, version, mode, stratum, origin, stamp order and distance, root quality |
| `Ntp.EveryPacketIsEncoded` | prototypes/qualify_clock_sources.py:28-39 | Every reply of 48 bytes is the encoding of the header that is read from it |
| `Ntp.AdmittedIffAdmissible` | prototypes/qualify_clock_sources.py:28-42 | An encoded header is admitted if and only if its fields are admissible |
| `Ntp.FieldsRead` | prototypes/qualify_clock_sources.py:30-39 | Round trip: every field read from an encoded header is the one written |
| `Ntp.StampOrder` | prototypes/qualify_clock_sources.py:35-38 | Stamps compare as seconds just as 64-bit big-endian numbers and just as their bytes |
| `Ntp.IntervalIsExact` | prototypes/qualify_clock_sources.py:38-46 | The interval holds exactly the times at receipt that the reply allows: transmit error within the root distance, transmission between send and receive |
| `Ntp.IntervalWidth` | prototypes/qualify_clock_sources.py:38-46 | Its width is the round trip plus twice the root distance, and the admission bounds the root distance by ten seconds |
| `Ntp.ReadingTells` | prototypes/qualify_clock_sources.py:35-46 | The time of transmission is the last stamp as seconds of Unix time, and the ends of the interval are the stated distances from it, in the fields of the header |
| `Ntp.RefusedIff` | prototypes/qualify_clock_sources.py:30-43 | Each refusal is given exactly when its own check fails and those before it hold |
| `Ntp.Request` | prototypes/qualify_clock_sources.py:16-20 | The buffer filled in place is the version 4 client header with the token as transmit timestamp |
| `Ntp.ControlReply` | prototypes/qualify_clock_failures.py:14-26 | The reply built in place from the request is that of its kind |
| `Ntp.ControlsRefused` | prototypes/qualify_clock_failures.py:16-26 | Each control is refused for its own fault, but a wrong origin is not noticed when the token is all zero |
| `Ntp.FaultlessRefused` | prototypes/qualify_clock_failures.py:16-18 | The reply without a fault is refused too, for its zero timestamps |

## Left out

- The mailbox, scheduler, controller and the other runtime packages: the modelled scripts only call them.
- Sockets, subprocesses, terminals, `/proc` text, permissions and real hashing: their answers are arguments, and digests are functions that are injective where a lemma says so.
- JSON values: `1`, `1.0` and `True` are different here and equal in Python, and iterating over a value that is not a list raises here.
- Reason texts: the wording of an error is left out, and its kind is kept only where it decides something.
- Acceptance.Run: the work directory, the final write of the result file, and the host preflight before the run are not part of it; options have their types.
- AcceptancePolling.PollStatus: says nothing of the last status read after the operator's turn being at least the last one polled, because the code does not compare them.
- Retirement.Apply: a receipt is written whole or not at all, so a torn write is not modelled; nor is the process-start race that the script disclaims.
- Inspection.TakeCensus: the links of one surface of a process are read in one step.
- Registrations.ParsePrinted: white space is that of ASCII.
- Lockfile.LockFile.Normalize: newline translation by text mode is not modelled, and versions have no bracket, quote, blank or line break.
- FixturePhases.Handler.DoPost: the streamed body, `do_GET` and the extra fields of a call's record are not modelled; the mutex makes the modelled part one step.
- Sessions.Store.Handle: `initialize` and its failures, fixed thread fields other than the turns, and the switches behind a turn's first status, which come with the request.
- ProcessTree.RetireOwned: parsing of `ps` output, and the termination of the direct children before the signals.
- PolicyWiring.Check: manifest values have their types, though any key may be missing; digits and hashes are ASCII text, and the order of the errors is not stated.
- CiScope.Classify: texts are decoded characters, and a JSON text too deep for the parser is one that does not parse.
- Ntp.IntervalIsExact: arithmetic is exact, while 63-bit stamps do not fit a double.
- `wait_for_preflight`, `excluded_skill_paths`, the lifecycle probe, the generated programs of the handoff script and the rollout snapshot of the journey script: single loops or set differences, which would add easy members only.
