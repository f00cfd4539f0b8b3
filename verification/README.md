# Verification model of the desktop tool

A Dafny 4.11 model of the parts of this repository that drive a desktop while somebody may be using it,
with proofs of what they promise. `dafny verify dfyconfig.toml` checks all of it.

How the modules follow the program:

- **Scratch directories** (`ScratchLease`, `ScratchLife`, `ScratchSweep`): any number of agents that create,
  lock, write and die, and any number of sweepers, one system call at a time; the life of one lease in such runs;
  and the sweep itself as a class over that machine.
- **Executing a call** (`BandProtocol`, `Dispatch`, `DispatchAlone`, `Batch`, `Actions`, `Validator`): the
  band's depth counter with the two cancellation handshakes; pinned bindings racing with retarget, policy
  changes and cleanup; the batch loop; validation against what running an action demands.
- **Stopping for a human** (`Pause`, `Exclusion`, `TargetBinding`, `GuardSpec`, `CoexistenceGuard`,
  `GuardRuns`, `HaltStore`, `HaltSessions`): the guard and its parts as classes proved against a
  specification, that specification over whole sessions, and several sessions over the shared files that
  remember a halt.
- **Held input** (`Ledger`, `LedgerReentrant`): the ledger as a class with callbacks that do not call back,
  and as a machine with an explicit stack for callbacks that do.
- **Acting on an observation** (`Observed`), **coordinates** (`Geometry`), **screenshots in the history**
  (`Recency`), **archived evidence** (`Evidence`, with `JsonValues`), **the coexistence check** (`HaltTrace`,
  `SyncCounter`).

Concurrent protocols are machines over labels. A run is any sequence of labels, so a theorem about `Run`
speaks of every interleaving; a label that cannot happen does nothing. What clocks, files, backends, humans
and callbacks do is a parameter and arbitrary.

Some properties one would expect are not what the code does. For each of these there is a member with an
input that shows it and one that says exactly when the property holds:

- A callback that holds another input while `stop` runs it leaves that input held in a stopped ledger
  without a timer (`HeldFromInsideAStopIsStuck`, `QuietLedgersAreCoveredExactlyWhen`). A release pops by
  token, so it can also take away a hold made meanwhile under the same token
  (`HeldAgainFromItsOwnCallbackIsLost`, `HoldsVanishExactlyBy`).
- Some halt records make a poll raise an error that is not a halt: those nested too deep for the
  interpreter and those with an integer no float can hold; so does a look at the file that is refused. The
  event is then refused, but the guard is not latched, and clearing all records stops there
  (`SomeRecordsExplode`, `ExplosiveRecordsDoNotLatch`, `ReadingMeaning`, `PollsRaiseExactlyWhen`,
  `HaltDirectory.ClearAll`).
- A record removed between the beginning of a call and the look at the file is missed
  (`ARecordRemovedInTimeIsMissed`, `RecordsAreMissedExactlyWhen`).
- Keys are per host, file names are not always (`SomeHostsShareARecord`, `HostsShareARecordExactlyWhen`).
- The reason kept with a halt can change after the fact (`SnapshotsAreReplacedExactlyBy`), and a halt for a
  lost policy is remembered as a detected human (`RememberedAsUnknownExactlyWhen`).
- The evidence walk does not look inside the `kind` of a reference (`HiddenEnvelopesGoUnchecked`,
  `WhatTheWalkOverlooks`).
- A counter list with a second SERVERTIME entry is refused even if that entry has no id
  (`AZeroIdStillCounts`, `TheOnlyServerTimeIsFound`).
- A step that failed just before a cancellation is not reported as uncertain
  (`ALostFailureIsNotReported`, `UncertainUnlessTheFailureWasLost`).
- A click on an observed region one pixel wide can fall outside it (`ASingleOddPixelIsMissed`,
  `CentreIsInsideExactlyWhen`).
- An image side whose ideal size is under 2 pixels is widened to 2, above the ideal and possibly above the
  budget (`SomeSidesAreWidened`, `SidesKeepToTheIdealExactlyWhen`).

Where the code and its comments differ the model follows the code: the bound on `duration` is applied to
flat calls too (a comment exempts them); a start check that refuses a present human neither latches nor
releases; a sample that cannot be read by a guard without a target clock raises without releasing.

## Model

| member | source | states |
|---|---|---|
| ScratchLease.SweepersRemoveOnlyStaleOrphans | modules/tool-computer-use/amplifier_module_tool_computer_use/agent_scratch_lease.py:164-217 | in every interleaving, whatever a sweeper unlinks belongs to a creator that took its lease, wrote the marker line and is dead, is locked by that sweeper, and is at least as old as both 24 hours and the caller's limit |
| ScratchLease.LivingCreatorsAreProtected | modules/tool-computer-use/amplifier_module_tool_computer_use/agent_scratch_lease.py:87-134 | while the creating process lives, before or after it locks, only that process itself removes its directory or marker |
| ScratchLease.EachDirectoryIsReportedOnce | modules/tool-computer-use/amplifier_module_tool_computer_use/agent_scratch_lease.py:220-261 | over all sweepers of a run no directory is reported removed twice, and a reported one is really gone |
| ScratchLease.SweepersLockOnlyWrittenMarkers | modules/tool-computer-use/amplifier_module_tool_computer_use/agent_scratch_lease.py:71-84 | a sweeper holds the lock of a marker only if its creator had locked and written it, and is dead |
| ScratchLease.CreatorsAlwaysGetTheirLock | modules/tool-computer-use/amplifier_module_tool_computer_use/agent_scratch_lease.py:114-125 | a creator that reaches its own lock attempt meets no contention: no sweeper can be in the way |
| ScratchLife.SweepersWaitTheRetentionOut | modules/tool-computer-use/amplifier_module_tool_computer_use/agent_scratch_lease.py:182-207 | when a sweeper owns a lock, the clock read at its start is at least a day, and at least the age asked for, ahead of the clock at which the creator wrote the magic line, in a private directory |
| ScratchLife.ChecksAreRepeatedUnderTheLock | modules/tool-computer-use/amplifier_module_tool_computer_use/agent_scratch_lease.py:141-207 | past the link count a sweeper has, since it owns the lock, seen the marker with its one link and the whole line; past the names, it has seen the name lead to this directory and the marker in it |
| ScratchLife.FailuresAbandon | modules/tool-computer-use/amplifier_module_tool_computer_use/agent_scratch_lease.py:164-217 | a system call that fails ends the attempt, and that call has removed, created and reported nothing |
| ScratchLife.ReportsAreOfNamesGone | modules/tool-computer-use/amplifier_module_tool_computer_use/agent_scratch_lease.py:204-209 | a removal is reported by the sweeper that did it, once, and only while nothing has the name |
| ScratchLife.CreatorsGoOn | modules/tool-computer-use/amplifier_module_tool_computer_use/agent_scratch_lease.py:87-134 | a living creator that goes on gets marker, lock and line whatever sweepers do; without a private directory it goes on unleased |
| ScratchLife.CreatorsCleanUp | modules/tool-computer-use/amplifier_module_tool_computer_use/ssh_transport.py:311 | a creator that ends in order takes its directory with it; a dead one's directory only a sweeper removes |
| ScratchLease.RunKeepsInv | modules/tool-computer-use/amplifier_module_tool_computer_use/agent_scratch_lease.py:87-261 | the inductive invariant behind these, over every sequence of steps of any number of creators and sweepers, deaths included |
| ScratchSweep.ScratchBase.RemoveIfUnlockedStale | modules/tool-computer-use/amplifier_module_tool_computer_use/agent_scratch_lease.py:164-217 | run undisturbed, it removes a directory and says so exactly when the directory is reclaimable and the removal does not fail; otherwise everything stays, and the lock is given back |
| ScratchSweep.ReclaimableExactlyWhen | modules/tool-computer-use/amplifier_module_tool_computer_use/agent_scratch_lease.py:71-84 | the terms in full: a private directory, the marker there under one name with the whole line, unlocked, and at least 86400 seconds and the caller's limit old |
| ScratchSweep.ScratchBase.SweepStaleAgentDirs | modules/tool-computer-use/amplifier_module_tool_computer_use/agent_scratch_lease.py:220-261 | the loop removes exactly the reclaimable directories of its listing, reports each once, and leaves every other directory as it was |
| ScratchSweep.AbandonedAreReclaimableExactlyWhenOld | modules/tool-computer-use/amplifier_module_tool_computer_use/agent_scratch_lease.py:87-261 | from making the directory to the sweep: what a dead creator leaves is for a sweep to take if and only if it was private, the magic line was written, and both ages have gone by since |
| ScratchSweep.DoomedExactly | modules/tool-computer-use/amplifier_module_tool_computer_use/agent_scratch_lease.py:245-259 | which names of a listing a sweep goes for: those with the prefix that are reclaimable and whose removal does not fail |
| ScratchSweep.QuietInEveryRun | modules/tool-computer-use/amplifier_module_tool_computer_use/agent_scratch_lease.py:164-217 | a sweeper between two directories holds no lock, in every run, so the undisturbed contract applies wherever a run has got to |
| BandProtocol.EachTokenReleasedExactlyOnce | modules/tool-computer-use/amplifier_module_tool_computer_use/__init__.py:2692-2714 | wherever cancellation strikes against the worker, a token is handed to at most one release, and has been released exactly once when the call and its workers are over |
| BandProtocol.DepthCountsOutstandingTokens | modules/tool-computer-use/amplifier_module_tool_computer_use/__init__.py:1985-2017 | over all calls of all tools of a channel, the depth is the number of tokens acquired and not yet released |
| BandProtocol.BandFollowsDepth | modules/tool-computer-use/amplifier_module_tool_computer_use/__init__.py:2041-2071 | the band is lowered only when no token is outstanding, and unless a raise has failed it is up whenever one is |
| BandProtocol.TheBandComesDown | modules/tool-computer-use/amplifier_module_tool_computer_use/__init__.py:2041-2071 | in every run the band is up only while a call is under way or about to look, or since the disclosure raised it or held input spared it; once all calls have settled it is down otherwise |
| BandProtocol.LooksAtDepthZeroHide | modules/tool-computer-use/amplifier_module_tool_computer_use/__init__.py:2067-2071 | a last look, and the session's cleanup, at depth zero with nothing held take it down |
| BandProtocol.HeldInputKeepsTheBandUp | modules/tool-computer-use/amplifier_module_tool_computer_use/__init__.py:2064-2066 | while input is held nobody takes it down; a disclosure and a working show() put it up |
| BandProtocol.WaitingCallsCanLeave | modules/tool-computer-use/amplifier_module_tool_computer_use/__init__.py:2704-2714 | a coroutine can be cancelled wherever it waits, and a refused one leaves without having taken part |
| BandProtocol.NoLoweringUnderARunningStep | modules/tool-computer-use/amplifier_module_tool_computer_use/__init__.py:2881-2927 | a worker still injecting after its coroutine was cancelled keeps its token, so no step of anybody lowers the band |
| BandProtocol.UnfinishedCallsProgress | modules/tool-computer-use/amplifier_module_tool_computer_use/__init__.py:3050-3105 | every call that still owes something has a step that brings it nearer to its end: no token is left waiting for ever |
| BandProtocol.RunKeepsInv | modules/tool-computer-use/amplifier_module_tool_computer_use/__init__.py:1985-2071 | the invariant of both handshakes, over every interleaving |
| Dispatch.CallsStartOnTheCheckedBinding | modules/tool-computer-use/amplifier_module_tool_computer_use/__init__.py:3017-3048 | every backend call starts with its pinned binding current, disclosed, not refused and not closed, with the target and policy its request was approved for; one for a writing step only if writing is allowed and, when gated, under the approval callback now installed |
| Dispatch.GatedWritesWereGranted | modules/tool-computer-use/amplifier_module_tool_computer_use/__init__.py:2755-2762 | no writing call on a gated target starts without a yes, given to this very request by the callback that is still installed |
| Dispatch.DeniedRequestsNeverRun | modules/tool-computer-use/amplifier_module_tool_computer_use/__init__.py:2760-2761 | a no is final: the request stays stopped, and none of its steps ever starts a call |
| Dispatch.NoBackendLeaks | modules/tool-computer-use/amplifier_module_tool_computer_use/__init__.py:1930-1936 | every backend ever made is the current one, closed, or about to be, whether retargets succeed or fail |
| Dispatch.CleanupIsFinal | modules/tool-computer-use/amplifier_module_tool_computer_use/__init__.py:5419-5459 | a cleanup is never undone, and no call starts after it |
| Dispatch.OwnersTakeEffect | modules/tool-computer-use/amplifier_module_tool_computer_use/__init__.py:637-643 | a tightening is in force at once and changes nothing else of the binding; a cleanup is marked before it closes the backend |
| Dispatch.NothingMovesUnderARunningCall | modules/tool-computer-use/amplifier_module_tool_computer_use/__init__.py:2946-2975 | while a call runs no retarget, policy change or cleanup takes effect, and its backend is not closed |
| Dispatch.CallsNeverOverlap | modules/tool-computer-use/amplifier_module_tool_computer_use/__init__.py:3017-3029 | at most one backend call of a tool runs at a time |
| Dispatch.UndisturbedRequestsRun | modules/tool-computer-use/amplifier_module_tool_computer_use/__init__.py:3031-3048 | the checks stop nothing else: a ready request on an unchanged binding enters, and each step of it within policy, reading or writing, does start |
| DispatchAlone.ARequestAloneRunsExactlyWhen | modules/tool-computer-use/amplifier_module_tool_computer_use/__init__.py:2764-2850 | from arrival to backend call, for every policy and every answer: a request nobody disturbs runs if and only if the operator takes the disclosure and, where it writes, the binding is not read-only and the operator, where asked, said yes |
| DispatchAlone.ReplacedBindingsStopRequests | modules/tool-computer-use/amplifier_module_tool_computer_use/__init__.py:2716-2762 | in every run a request is stopped at its next check if and only if its binding has been replaced by anything but a stage of its disclosure, or the disclosure refused; at the answer also if the operator says no or the callback asked is no longer installed |
| DispatchAlone.IdleRetargetsGoThrough | modules/tool-computer-use/amplifier_module_tool_computer_use/__init__.py:1583-1760 | a retarget of an idle channel installs the new binding on the backend built for it and closes the old one; one that cannot be built changes nothing but that its attempt is closed |
| DispatchAlone.TokensComeAndGo | modules/tool-computer-use/amplifier_module_tool_computer_use/__init__.py:1985-2017 | a band token is taken exactly where there is a band to raise, counts for its channel alone, and is given back once |
| Dispatch.TokensAreOfTheCurrentChannel | modules/tool-computer-use/amplifier_module_tool_computer_use/__init__.py:1985-2017 | a tool only ever holds band tokens of the channel it is bound to, and the depth of every channel counts the tokens of all tools on it |
| Dispatch.SwapsLeaveNoTokenBehind | modules/tool-computer-use/amplifier_module_tool_computer_use/__init__.py:1671-1686 | a retarget changes the binding only while no request of the tool holds a band token, and to another channel |
| Dispatch.RunKeepsInv | modules/tool-computer-use/amplifier_module_tool_computer_use/__init__.py:1460-1580 | the invariant over requests, retargets, policy changes and cleanup |
| Batch.Execute | modules/tool-computer-use/amplifier_module_tool_computer_use/__init__.py:3107-3277 | for every failure, cancellation and binding change: the report is truthful and names an uncertain action exactly when it must; nothing is dispatched that is not allowed at its turn, nor after a failure or cancellation; it stops only for the reason it gives; success means the whole batch ran, and an undisturbed batch succeeds |
| Batch.RunCall | modules/tool-computer-use/amplifier_module_tool_computer_use/__init__.py:3147-3206 | the presses of one action: going on means that every one of them finished |
| Batch.TimesMeaning | modules/tool-computer-use/amplifier_module_tool_computer_use/__init__.py:196-210 | a key action counts as often as it says, from 1 to 100, once without a count, and not at all with another; anything else counts once |
| Actions.MutatingNames | modules/tool-computer-use/amplifier_module_tool_computer_use/__init__.py:220-235 | which of the named actions change the machine, and no others |
| Batch.ReportsCountExactlyWhatFinished | modules/tool-computer-use/amplifier_module_tool_computer_use/__init__.py:2642-2678 | the dispatched steps are an in-order prefix of the batch with every key expanded by its count; the reported actions and presses are exactly the steps that finished, and at most one more was dispatched |
| Batch.CaptureIsLast | modules/tool-computer-use/amplifier_module_tool_computer_use/__init__.py:3239-3271 | a successful capture_after batch returns a full screenshot taken by its last step, with one extra capture exactly when the last action was no screenshot |
| Batch.UncertainUnlessTheFailureWasLost | modules/tool-computer-use/amplifier_module_tool_computer_use/__init__.py:3190-3230 | a dispatched, unfinished action is reported uncertain exactly when it did not fail just before a cancellation that was reported instead |
| Batch.ALostFailureIsNotReported | modules/tool-computer-use/amplifier_module_tool_computer_use/__init__.py:3187-3214 | such a batch: its one step is dispatched and fails, and the report names nothing as uncertain |
| GuardRuns.EventsPassExactlyWhenClear | modules/tool-computer-use/amplifier_module_tool_computer_use/coexistence_guard.py:363-463 | after any history, an event passes exactly when the guard is not halted, the sample admits it, it is not paused, the point lies in no excluded rectangle, and the target is the bound one |
| GuardRuns.StartsPassExactlyWhen | modules/tool-computer-use/amplifier_module_tool_computer_use/coexistence_guard.py:339-355 | after any history, an operation may start exactly when not halted, told of no record, with its policy active, and with no human in the way that drive_anyway or the policy does not cover; that last refusal latches nothing, every other is a halt carried out |
| GuardRuns.ConditionsPassExactlyWhen | modules/tool-computer-use/amplifier_module_tool_computer_use/coexistence_guard.py:556-586 | a condition is handed on exactly when, besides, a policy finds nobody pausing and an identified target bound; what each refusal does is said |
| GuardRuns.ReceiptsPassExactlyWhen | modules/tool-computer-use/amplifier_module_tool_computer_use/coexistence_guard.py:588-620 | a receipt is accepted exactly when it is readable, ok, shows no human beyond the policy, and names the bound target under it; anything else is a halt carried out |
| GuardRuns.PassedEventsAreOnTarget | modules/tool-computer-use/amplifier_module_tool_computer_use/coexistence_guard.py:417-463 | an event that passes over a present human does so under a policy still active after the sample, on an identified and bound target |
| GuardRuns.OperationsStayOnTheirTarget | modules/tool-computer-use/amplifier_module_tool_computer_use/coexistence_guard.py:450-463 | once an operation has its target, read when it began or, under a policy, of its first event that passes, events pass exactly when they are clear and on that target, whatever happens short of a bind or a release |
| GuardRuns.OperationsStartAnywhere | modules/tool-computer-use/amplifier_module_tool_computer_use/coexistence_guard.py:323-336 | after a release, and under a policy after a bind, the next event is compared with no earlier target |
| GuardRuns.PausesLastUntilResumed | modules/tool-computer-use/amplifier_module_tool_computer_use/coexistence_guard.py:436-440 | from a pause on no event passes until it is resumed, and then nothing of the pause is left, whatever happens in between |
| GuardRuns.ExclusionsLast | modules/tool-computer-use/amplifier_module_tool_computer_use/coexistence_guard.py:441-447 | no event at a point in a registered rectangle passes until the rectangles are changed |
| GuardRuns.HaltIsForever | modules/tool-computer-use/amplifier_module_tool_computer_use/coexistence_guard.py:480-498 | a guard once halted is halted after whatever follows |
| GuardRuns.SnapshotsAreReplacedExactlyBy | modules/tool-computer-use/amplifier_module_tool_computer_use/coexistence_guard.py:428-431 | the reason kept with a halt is replaced exactly by a seed, by a sample of a present human where there is no target clock, and by a receipt of one; by what, is said |
| GuardRuns.NothingPassesAfterAHalt | modules/tool-computer-use/amplifier_module_tool_computer_use/coexistence_guard.py:404-412 | once halted, every event, start check, condition and receipt is refused |
| GuardRuns.RefusalsHaveReleased | modules/tool-computer-use/amplifier_module_tool_computer_use/coexistence_guard.py:404-463 | each halt, pause and target-change refusal has released all held input before it is raised, with the reason that belongs to it; the two readings that fail before a release are told apart |
| GuardRuns.LostPolicyIsFinal | modules/tool-computer-use/amplifier_module_tool_computer_use/coexistence_guard.py:313-321 | the first check that finds the policy inactive latches a permanent halt, whatever the policy says later |
| GuardRuns.PoliciesAreActiveExactlyWhile | modules/tool-computer-use/amplifier_module_tool_computer_use/coexistence_guard.py:104-137 | a policy is granted for its own channel, to end within the hour, and is active exactly while neither clock has reached that end and channel and configuration are the same |
| GuardRuns.NoClockExtendsAPolicy | modules/tool-computer-use/amplifier_module_tool_computer_use/coexistence_guard.py:104-137 | no movement of the wall clock keeps a policy active beyond 3600 seconds of monotonic time |
| GuardRuns.RunKeepsInv | modules/tool-computer-use/amplifier_module_tool_computer_use/coexistence_guard.py:289-320 | halted exactly when a snapshot is stored, over every run of all operations |
| GuardRuns.ClassifyMeaning | modules/tool-computer-use/amplifier_module_tool_computer_use/coexistence_guard.py:404-435 | the presence half of an event: what lets it go on, and what each refusal has changed and released |
| GuardRuns.PlaceMeaning | modules/tool-computer-use/amplifier_module_tool_computer_use/coexistence_guard.py:437-463 | the other half: pause, then exclusion, then target, in that order, and nothing else |
| CoexistenceGuard.CoexistenceGuard.BeforeEvent | modules/tool-computer-use/amplifier_module_tool_computer_use/coexistence_guard.py:363-463 | the method reaches the state and the outcome of the specification for every reading |
| CoexistenceGuard.CoexistenceGuard.CheckStartPermission | modules/tool-computer-use/amplifier_module_tool_computer_use/coexistence_guard.py:339-361 | the start check against its specification |
| CoexistenceGuard.CoexistenceGuard.CheckTargetCondition | modules/tool-computer-use/amplifier_module_tool_computer_use/coexistence_guard.py:556-586 | the forwarded condition against its specification |
| CoexistenceGuard.CoexistenceGuard.AcceptTargetResult | modules/tool-computer-use/amplifier_module_tool_computer_use/coexistence_guard.py:588-650 | the receipt of a forwarded call against its specification |
| Pause.PauseController.Set | modules/tool-computer-use/amplifier_module_tool_computer_use/pause.py:69-79 | only a listed source can pause; the four fields always tell one story |
| Pause.PauseController.Check | modules/tool-computer-use/amplifier_module_tool_computer_use/pause.py:99-110 | raises exactly while paused, with the facts of the pause |
| Exclusion.FirstMeansExcluded | modules/tool-computer-use/amplifier_module_tool_computer_use/exclusion.py:68-74 | the linear scan finds a rectangle exactly when the point lies in one, edges included at the low side only |
| Exclusion.ExclusionZone.Register | modules/tool-computer-use/amplifier_module_tool_computer_use/exclusion.py:56-60 | registering changes which points are excluded by that rectangle alone |
| Exclusion.ExclusionZone.Unregister | modules/tool-computer-use/amplifier_module_tool_computer_use/exclusion.py:62-63 | that rectangle goes, the others and their order stay |
| TargetBinding.TargetBinding.Check | modules/tool-computer-use/amplifier_module_tool_computer_use/target_binding.py:70-83 | raises exactly when bound to something else, None included |
| HaltSessions.StandingRecordsRefuse | modules/tool-computer-use/amplifier_module_tool_computer_use/coexistence_guard.py:404-412 | an event that began while a record of one of the guard's keys stood, and stands, does not pass; if its polls came to an answer the guard is halted too |
| HaltSessions.HaltReachesOtherSessions | modules/tool-computer-use/amplifier_module_tool_computer_use/coexistence_guard.py:500-517 | an event that begins while a record of its key exists, and is not removed before the polls, does not return normally, whatever other sessions do in between |
| HaltSessions.HaltedSessionsStayRefused | modules/tool-computer-use/amplifier_module_tool_computer_use/coexistence_guard.py:480-498 | a halted session stays refused when records are removed |
| HaltSessions.UndisturbedPollsReport | modules/tool-computer-use/amplifier_module_tool_computer_use/halt_state.py:371-378 | a poll that nobody disturbs is over after at most four looks and reports what a mount at that time would have found; the event is then decided with that, and the next call starts afresh |
| HaltSessions.PollsRaiseExactlyWhen | modules/tool-computer-use/amplifier_module_tool_computer_use/halt_state.py:371-378 | a poll raises something that is no halt, and leaves the guard as it was, exactly when a look is refused, stat finds a path that does not resolve, or the record it reads explodes |
| HaltSessions.ExplosiveRecordsDoNotLatch | modules/tool-computer-use/amplifier_module_tool_computer_use/halt_state.py:371-378 | such a call from beginning to end: the record stands, the event is refused, the guard is not halted |
| HaltSessions.RecordsAreMissedExactlyWhen | modules/tool-computer-use/amplifier_module_tool_computer_use/__init__.py:4749-4769 | in every run: an unhalted call's polls report nothing exactly when each of its own files, the pre-migration one included, was absent at one of its looks; and the event then passes exactly when everything else is clear |
| HaltSessions.MissesAreLooks | modules/tool-computer-use/amplifier_module_tool_computer_use/halt_state.py:371-376 | what counts as absent at a look: the call itself looked, could look, and the file was not there at that moment |
| HaltSessions.ARecordRemovedInTimeIsMissed | modules/tool-computer-use/amplifier_module_tool_computer_use/halt_state.py:371-380 | the witness for the condition above: a record removed after the call began and before it is looked for is missed |
| HaltStore.ListedNamesRoundTrip | modules/tool-computer-use/amplifier_module_tool_computer_use/halt_state.py:326-332 | every name listed leads back to the very file it was listed for |
| HaltStore.ListedNamesAre | modules/tool-computer-use/amplifier_module_tool_computer_use/halt_state.py:326-332 | a file is listed if and only if it ends in the suffix, under what stands before it; the suffix alone is listed whole |
| HaltStore.HaltDirectory.ListHalted | modules/tool-computer-use/amplifier_module_tool_computer_use/halt_state.py:326-332 | the stem of every file with the suffix, and nothing else |
| HaltStore.RecordsAreListedBack | modules/tool-computer-use/amplifier_module_tool_computer_use/halt_state.py:216-262 | whatever is recorded is listed, under a name that leads back to it |
| HaltStore.HaltDirectory.ClearAll | modules/tool-computer-use/amplifier_module_tool_computer_use/resume_cli.py:58-72 | it removes every record, and finishes exactly when none of them explodes, none is refused to the look and none to the removal |
| HaltStore.HaltDirectory.LoadHalt | modules/tool-computer-use/amplifier_module_tool_computer_use/halt_state.py:265-302 | absent exactly without a file, raising exactly when the look is refused or the text explodes; anything else, unreadable or corrupt as it may be, is a halt, and which one is said |
| HaltStore.ReadingMeaning | modules/tool-computer-use/amplifier_module_tool_computer_use/halt_state.py:159-181 | a text explodes exactly when it is nested too deep, or when, after fields that convert, one holds an integer beyond any float or a name or reason nested too deep; every other text is a halt |
| HaltStore.SomeRecordsExplode | modules/tool-computer-use/amplifier_module_tool_computer_use/halt_state.py:281-283 | an integer that rounds to 2^1024 for a time, and mere nesting, explode on every interpreter |
| HaltStore.HaltDirectory.RecordHalt | modules/tool-computer-use/amplifier_module_tool_computer_use/halt_state.py:216-262 | from then on this key, and every key that shares its file, loads as what is remembered of the halt, and every other key loads as before |
| HaltStore.RecordsReadBack | modules/tool-computer-use/amplifier_module_tool_computer_use/halt_state.py:144-157 | a record written from any snapshot reads back as the halt it was made from, as far as that is remembered |
| HaltStore.HostsShareARecordExactlyWhen | modules/tool-computer-use/amplifier_module_tool_computer_use/halt_state.py:205-213 | two hosts of a platform share a record exactly when their names are equally long and differ only in unsafe characters and underscores |
| HaltStore.OwnRecordsDiffer | modules/tool-computer-use/amplifier_module_tool_computer_use/__init__.py:4725-4746 | the record of a remote target is never that of its platform as a whole |
| HaltStore.KeysOfATarget | modules/tool-computer-use/amplifier_module_tool_computer_use/__init__.py:4705-4746 | a remote target has its own key and its platform's, a local one its name alone |
| HaltSessions.MountsHonourThePlatformsRecord | modules/tool-computer-use/amplifier_module_tool_computer_use/__init__.py:4387-4397 | a record under the platform's name halts every session mounted for a target of it |
| HaltSessions.SessionsWatchThePlatformsRecord | modules/tool-computer-use/amplifier_module_tool_computer_use/__init__.py:4749-4769 | a session watches its target's own file and its platform's, and is mounted halted exactly when one of them is there, by the own one first |
| HaltSessions.PlatformRecordsReachTheirTargets | modules/tool-computer-use/amplifier_module_tool_computer_use/__init__.py:4749-4769 | whenever it was mounted, a session refuses every event that begins while its platform's record stands and is not removed |
| HaltStore.HostsHaveTheirOwnKeys | modules/tool-computer-use/amplifier_module_tool_computer_use/__init__.py:4705-4746 | different hosts of one platform have different keys |
| HaltStore.SomeHostsShareARecord | modules/tool-computer-use/amplifier_module_tool_computer_use/halt_state.py:205-213 | ... and yet there are two hosts whose records are one file |
| HaltStore.RepersistingIsIdempotent | modules/tool-computer-use/amplifier_module_tool_computer_use/halt_state.py:131-202 | storing what was loaded stores the same fact, however often |
| HaltStore.RememberedAsUnknownExactlyWhen | modules/tool-computer-use/amplifier_module_tool_computer_use/halt_state.py:183-202 | which halts come back as unknown; every other one, a lost policy included, comes back as a detected human |
| Ledger.HeldInputLedger.ReleaseAll | modules/tool-computer-use/amplifier_module_tool_computer_use/ledger.py:126-145 | what was held splits into what is returned and what stays; exactly the retained holds whose callback failed stay, and every callback runs once, in order |
| Ledger.HeldInputLedger.Hold | modules/tool-computer-use/amplifier_module_tool_computer_use/ledger.py:75-112 | before and after a stop: what is then held, which callback has run, and that the timer starts anew |
| Ledger.HeldInputLedger.Release | modules/tool-computer-use/amplifier_module_tool_computer_use/ledger.py:114-124 | only that token's callback runs, only it goes, and an unknown token is a no-op |
| Ledger.HeldInputLedger.Stop | modules/tool-computer-use/amplifier_module_tool_computer_use/ledger.py:147-156 | afterwards only failed retained holds are left and no timer runs |
| Ledger.HeldInputLedger.Advance | modules/tool-computer-use/amplifier_module_tool_computer_use/ledger.py:192-208 | no hold without custody outlives the deadman interval after the last reset |
| Ledger.ReleaseSplits | modules/tool-computer-use/amplifier_module_tool_computer_use/ledger.py:126-145 | released and kept are a partition of the held, nothing twice and nothing lost |
| Ledger.SplitMembers | modules/tool-computer-use/amplifier_module_tool_computer_use/ledger.py:126-145 | exactly the retained holds with a failed callback are kept |
| LedgerReentrant.CallbacksRunOnce | modules/tool-computer-use/amplifier_module_tool_computer_use/ledger.py:164-190 | however callbacks call back in, at any depth: without custody a callback runs at most once, none runs again after it returned normally, none inside itself |
| LedgerReentrant.ConfirmedIsFinal | modules/tool-computer-use/amplifier_module_tool_computer_use/ledger.py:164-190 | after a callback returned normally no step of any kind runs it again |
| LedgerReentrant.QuietLedgersAreCoveredExactlyWhen | modules/tool-computer-use/amplifier_module_tool_computer_use/ledger.py:75-156 | when nothing is under way, whatever is held is unreleased, and without custody it is under the running timer of a ledger not stopped if and only if it was not held from inside a stop |
| LedgerReentrant.SweepsReachWhateverIsHeld | modules/tool-computer-use/amplifier_module_tool_computer_use/ledger.py:126-156 | whoever starts a sweep, and whatever its callbacks do meanwhile: when it returns every input held unreleased at its start has had its callback run, and a stop has stopped the ledger |
| LedgerReentrant.TimersLeadToASweep | modules/tool-computer-use/amplifier_module_tool_computer_use/ledger.py:192-208 | a running timer can run out, and its sweep of everything held starts once no call is under way |
| LedgerReentrant.UndisturbedReleases | modules/tool-computer-use/amplifier_module_tool_computer_use/ledger.py:114-125 | a release without interruption, from call to return: one callback, the token gone unless a retained hold failed, the timer running exactly if something is left and there was no stop |
| LedgerReentrant.HeldFromInsideAStopIsStuck | modules/tool-computer-use/amplifier_module_tool_computer_use/ledger.py:147-156 | the witness for that exception: the ledger ends stopped, without timer, with the input held |
| LedgerReentrant.HoldsVanishExactlyBy | modules/tool-computer-use/amplifier_module_tool_computer_use/ledger.py:184-184 | an unreleased hold leaves the dictionary exactly when a new hold takes its token or another hold of the same token is popped in its place |
| LedgerReentrant.HeldAgainFromItsOwnCallbackIsLost | modules/tool-computer-use/amplifier_module_tool_computer_use/ledger.py:177-184 | such a run: a callback holds its own token again, and the new hold is gone with its callback never run |
| LedgerReentrant.RunKeepsInv | modules/tool-computer-use/amplifier_module_tool_computer_use/ledger.py:75-208 | the invariant over every run, with stop and deadman sweeps nested in callbacks |
| Geometry.ImagePixelsRoundTripExactlyWhen | modules/tool-computer-use/amplifier_module_tool_computer_use/geometry.py:119-160 | to_model(to_screen(p)) == p for every image pixel if and only if the screen is at least as large as the image on both axes |
| Geometry.ToScreenIsStrictlyIncreasing | modules/tool-computer-use/amplifier_module_tool_computer_use/geometry.py:119-147 | ... and then to_screen is strictly increasing on each axis |
| Geometry.DesktopPixelsComeBackClose | modules/tool-computer-use/amplifier_module_tool_computer_use/geometry.py:149-160 | to_screen(to_model(s)) is within one scale factor of s on each axis, clamping and half-even rounding included |
| Geometry.DesktopPixelsRoundTripOnSmallScreens | modules/tool-computer-use/amplifier_module_tool_computer_use/geometry.py:149-160 | on a screen smaller than the image the desktop pixels round-trip exactly instead |
| Geometry.PointsLandOnTheDesktop | modules/tool-computer-use/amplifier_module_tool_computer_use/geometry.py:119-147 | a point is refused exactly when it is more than two pixels off the image; otherwise it lands on the desktop, beyond an edge on that edge |
| Geometry.ComputedSizesMeetTheirBudgets | modules/tool-computer-use/amplifier_module_tool_computer_use/geometry.py:163-175 | even sizes, not above the screen, within both budgets, the largest even ones below the ideal, and |mw*sh - mh*sw| < 2*max(sw, sh) |
| Geometry.IdealScaleIsTheLargest | modules/tool-computer-use/amplifier_module_tool_computer_use/geometry.py:166-171 | the scale is the largest that keeps to the screen and to both budgets, and exactly the smaller ones do |
| Geometry.SidesKeepToTheIdealExactlyWhen | modules/tool-computer-use/amplifier_module_tool_computer_use/geometry.py:172-175 | a side stays within its ideal if and only if the ideal is at least 2 |
| Geometry.SomeSidesAreWidened | modules/tool-computer-use/amplifier_module_tool_computer_use/geometry.py:172-175 | a screen and budgets for which a side comes out above its ideal and above the budget |
| Geometry.ComputedDisplaysRoundTrip | modules/tool-computer-use/amplifier_module_tool_computer_use/geometry.py:163-175 | on every screen of at least 2x2, whatever the budgets, a display with the computed size round-trips every image pixel |
| Recency.Expand | modules/hook-computer-use/amplifier_module_hook_computer_use/__init__.py:271-340 | same length and order; each message becomes exactly what the projection promises for it |
| Recency.ProjectionMeaning | modules/hook-computer-use/amplifier_module_hook_computer_use/__init__.py:271-340 | only authorised results change, and they show images exactly when they are among the most recent of the limit |
| Recency.TheLimitIsUsed | modules/hook-computer-use/amplifier_module_hook_computer_use/__init__.py:283-320 | as many messages show images as the limit allows and there are with a loadable image |
| Recency.NewerOnesComeFirst | modules/hook-computer-use/amplifier_module_hook_computer_use/__init__.py:281-283 | no newer result that could be shown is passed over for an older one |
| Recency.ResultsKeepTheirText | modules/hook-computer-use/amplifier_module_hook_computer_use/__init__.py:321-326 | an authorised result keeps its whole original text, with images or without |
| Recency.AuthorisedExactlyByTheIssue | modules/hook-computer-use/amplifier_module_hook_computer_use/__init__.py:228-251 | images are authorised exactly for a tool's message with a marked payload that says in none of three ways that it failed, vouched for by a remembered issue of the same call, mounted tool, payload and envelope |
| Recency.FailuresAreKept | modules/hook-computer-use/amplifier_module_hook_computer_use/__init__.py:289-301 | a result that says it failed, in whichever way, and a message that is no tool's, stay as they are and show nothing |
| Recency.MarkedObjectsAreFound | modules/hook-computer-use/amplifier_module_hook_computer_use/__init__.py:138-149 | where a marked payload is found, and where nothing is |
| Recency.MentionedExactlyWhen | modules/hook-computer-use/amplifier_module_hook_computer_use/__init__.py:141-141 | the marker is mentioned exactly where it occurs |
| Recency.TheFirstCaptureOfAPathIsLoaded | modules/hook-computer-use/amplifier_module_hook_computer_use/__init__.py:311-312 | the capture loaded for a path is the first issued under it |
| Recency.ImagesAreOfTheListedPaths | modules/hook-computer-use/amplifier_module_hook_computer_use/__init__.py:310-316 | every image comes from a listed path, and every listed path that loads is shown |
| Recency.DroppedImagesAreExplained | modules/hook-computer-use/amplifier_module_hook_computer_use/__init__.py:327-339 | a result that shows none of its images says whether they are gone or superseded |
| Recency.CaptureAuthority.Post | modules/hook-computer-use/amplifier_module_hook_computer_use/__init__.py:214-226 | one record per call, the oldest forgotten when there is no room |
| Recency.LoadAll | modules/hook-computer-use/amplifier_module_hook_computer_use/__init__.py:305-318 | the loadable images in order, and whether any is missing |
| Evidence.AssertReferences | release_checks/evidence_integrity.py:14-36 | returns normally if and only if every reference reachable through nested values and JSON artifacts passes its check and parses, cycles included; each JSON artifact reached is then parsed once, and nothing else ever is |
| Evidence.Walker.Walk | release_checks/evidence_integrity.py:17-34 | the recursive walk with its shared visited set, decreasing in the files left and the size of the value |
| Evidence.ClosedSetsAreSound | release_checks/evidence_integrity.py:17-36 | a set of files closed under reference carries the check to the end of every chain |
| Evidence.WhatTheWalkOverlooks | release_checks/evidence_integrity.py:19-34 | in a document that passes, the envelopes that go unchecked are exactly those under the `kind` of a checked one |
| Evidence.HiddenEnvelopesGoUnchecked | release_checks/evidence_integrity.py:20-31 | a document that passes though it contains an envelope that would not |
| Evidence.PassingEnvelopesHideInTheirKind | scripts/neutral_qualification.py:662-670 | of a reference that passes, only `kind` can hold another |
| Evidence.SafeNamesStayBelow | scripts/neutral_qualification.py:99-116 | a name is safe if and only if it is not empty, holds no backslash or colon, and no step of it is empty, "." or ".." |
| Evidence.PassesExactlyWhen | scripts/neutral_qualification.py:662-670 | a reference passes if and only if it has its three keys and no more, a digest of 64 small hexadecimal digits and a safe path to a file with that digest |
| Evidence.EnvelopesExactlyWhen | release_checks/evidence_integrity.py:19-20 | an object is taken for a reference if and only if each of the three keys is among its own |
| Evidence.ReferencesStayBelow | scripts/neutral_qualification.py:662-670 | a passing reference names a file under the root by a safe name, and carries that file's digest |
| Evidence.TamperedFilesAreRefused | scripts/neutral_qualification.py:668-669 | with any other digest the file fails the same reference |
| HaltTrace.HaltViolation | scripts/verify_coexistence.py:998-1025 | nothing if and only if no forbidden input was seen and every active row halted, released inside its own call, has no emission in it or later, and was followed by a refused attempt; otherwise the first offending call is named |
| HaltTrace.HoldsExactlyWhen | scripts/verify_coexistence.py:1000-1025 | the invariant in the recorded fields: halted, a release for the halt inside the call, no emission in it or after it, a refused attempt of its number or later |
| HaltTrace.Finish | scripts/verify_coexistence.py:1345-1373 | a case ends as a success if and only if it was one before, the invariant holds, no miss is proven and no sample was early |
| HaltTrace.HoldsFromTheFirstActiveRow | scripts/verify_coexistence.py:998-1025 | the same invariant told from the first active row on |
| HaltTrace.SuccessesEmitOnlyBeforeActivity | scripts/verify_coexistence.py:1357-1359 | a successful case emitted only in rows strictly before the first active one, and its count says so |
| HaltTrace.SuccessesEmitEarlier | scripts/verify_coexistence.py:998-1025 | in recorded time too: every emission ended before the first active call began |
| SyncCounter.EncodedListsParse | scripts/verify_coexistence.py:143-159 | every list of records, with joint padding of any content and in either byte order, survives encoding and parsing |
| SyncCounter.ParsedListsEncode | scripts/verify_coexistence.py:143-159 | only an encoded list parses |
| SyncCounter.ServerCounter | scripts/verify_coexistence.py:143-162 | the method against the recursive parser, limits included |
| SyncCounter.TheOnlyServerTimeIsFound | scripts/verify_coexistence.py:155-162 | the answer is (id, value) if and only if that is the only entry of the name and the id is not zero |
| SyncCounter.AZeroIdStillCounts | scripts/verify_coexistence.py:160-161 | two entries of the name are refused even if one of them has no id |
| SyncCounter.ValueSplits | scripts/verify_coexistence.py:156-156 | every signed 64-bit value is exactly one pair of halves |
| SyncCounter.EventTimeIsTheOnly | scripts/verify_coexistence.py:216-222 | the answer is the one time in (now - 2^31, now] congruent to the stamp |
| SyncCounter.RefusedExactlyWhenThereIsNone | scripts/verify_coexistence.py:216-222 | refused if and only if there is no such time |
| SyncCounter.ServerClock.Read | scripts/verify_coexistence.py:192-213 | readings never fall back nor leave ninety seconds, and exactly the others are refused |
| SyncCounter.EventsOfARunAreDated | scripts/verify_coexistence.py:192-222 | within a run an event's stamp gives back its full time across a 32-bit rollover |
| Observed.ObservedControl.Execute | modules/tool-computer-use/amplifier_module_tool_computer_use/observed_control.py:239-337 | stale is reported if and only if a change was noticed before any input (or the request failed so on its way); a change noticed after input is unknown; denied means that nothing went out, or that the guard or the backend itself lacked permission; completed means that exactly what was asked for went out, under its checks and without failure; undisturbed requests complete |
| Observed.ObservedControl.TypeGuarded | modules/tool-computer-use/amplifier_module_tool_computer_use/__init__.py:2407-2456 | for every length and every moment of change: what was typed is a prefix, each character under its own check, and staleness means that there was none |
| Observed.ObservedControl.BeforeEvent | modules/tool-computer-use/amplifier_module_tool_computer_use/observed_control.py:54-69 | the first character is checked for a fresh screen, the others for authority, and only the first can fail as stale |
| Observed.ObservedControl.Validate | modules/tool-computer-use/amplifier_module_tool_computer_use/observed_control.py:217-237 | stale exactly when revoked, expired before the first success, or changed |
| Observed.ObservedControl.TypeUnguarded | modules/tool-computer-use/amplifier_module_tool_computer_use/__init__.py:2457-2463 | without a guard: one check, one call, a prefix if it fails |
| Observed.ObservedControl.Gesticulate | modules/tool-computer-use/amplifier_module_tool_computer_use/__init__.py:1268-1293 | a click, key or scroll goes out at most once, right after its check |
| Observed.CentreIsInsideExactlyWhen | modules/tool-computer-use/amplifier_module_tool_computer_use/observed_control.py:288-292 | a click goes to the centre of its region, inside it if and only if the region is at least two pixels wide or starts at an even place |
| Observed.ASingleOddPixelIsMissed | modules/tool-computer-use/amplifier_module_tool_computer_use/observed_control.py:288-292 | a one-pixel region whose click falls outside |
| Validator.AcceptedActionsRun | modules/tool-computer-use/amplifier_module_tool_computer_use/__init__.py:2525-2640 | whatever is accepted against a display, flat or in a batch, in whichever mix of coordinate forms, runs there without a parameter or range error, and has a usable repeat count |
| Validator.AcceptedExactlyWhen | modules/tool-computer-use/amplifier_module_tool_computer_use/__init__.py:2525-2640 | action by action, the parameters with which a batch member is accepted, and no others |
| Validator.BatchesAreTakenUpExactlyWhen | modules/tool-computer-use/amplifier_module_tool_computer_use/__init__.py:2482-2524 | a batch is taken up if and only if it has its three parameters and no others, version 1, a truth value for capture_after, at least one action, a known screen, and only acceptable members |
| Validator.AcceptedActionsDo | modules/tool-computer-use/amplifier_module_tool_computer_use/__init__.py:2190-2341 | the backend call each accepted action makes, in terms of its parameters alone, defaults included |
| Validator.ZoomsRun | modules/tool-computer-use/amplifier_module_tool_computer_use/__init__.py:2170-2188 | the same for every mix of coordinate, region and start_coordinate of a zoom |
| Validator.ActionsHitTheirPixel | modules/tool-computer-use/amplifier_module_tool_computer_use/__init__.py:2136-2142 | an accepted pointer action on an image pixel acts on the desktop exactly where the display maps back to that pixel |
| Validator.ZoomsTakeAnArea | modules/tool-computer-use/amplifier_module_tool_computer_use/__init__.py:2183-2188 | an accepted zoom captures an area that starts on the desktop and is at least eight pixels each way |
| Validator.FlatCallsIgnoreTheRest | modules/tool-computer-use/amplifier_module_tool_computer_use/__init__.py:2560-2562 | a flat call is judged as the batch member with the unknown parameters left out |
| Validator.PrepareBatch | modules/tool-computer-use/amplifier_module_tool_computer_use/__init__.py:2482-2523 | a batch is prepared if and only if every member is accepted; otherwise the first bad member is named |
| Validator.ExecuteBatch | modules/tool-computer-use/amplifier_module_tool_computer_use/__init__.py:2764-2785 | from request to report: a batch with one invalid member dispatches nothing; one that is prepared is executed action by action as requested, with good parameters only, under a report that is truthful, explained, and on success complete |

## Left out

- The calls into X11, Windows, macOS and SSH, image encoding, overlay drawing and subprocesses: each backend call is one step that may fail.
- Presence sampling: a sample is any snapshot or a failure; thresholds and clocks of the monitor are not part of this model.
- Reuse of inode numbers and replacement of a path between the lease re-check and the removal: directories have identities of their own, and cooperating processes do not rename.
- Steps of the wall clock during a sweep: an age is what the sweep's own reading says it is.
- Failure to hand work to the thread pool, and `hide()` raising: in the band protocol a job once submitted runs.
- Whether input is held when the band is lowered: the look at the ledger and the lowering are one step, and a hold made between the two is left out.
- `DesktopTool.execute` under cancellation: its acquisition does not use the handshake.
- First-time disclosure of one channel by several tools at once, and binding setters without a lock other than the read-only one.
- A pause or resume between the single check of an event and its input: the pause is read once a call, and clicks fall between calls.
- The flat path of `_execute_calls` and of `_prepare_calls`: one action, trimmed of spaces, without the batch's report; its validation and the dispatch of its steps are modelled.
- The text of messages and log entries.
- Validator.AcceptedActionsRun: `float()` of a numeric string counts as a parameter error, which no accepted action reaches.
- Geometry.ComputedSizesMeetTheirBudgets: exact reals with the square root as a parameter, not IEEE floats.
- Geometry.ImagePixelsRoundTripExactlyWhen: exact reals, not IEEE floats.
- Recency.Expand: the JSON decoder is a parameter, known to yield texts shorter than its input; payloads whose images are no list, and message objects that refuse to be copied, are left out.
- HaltTrace.Finish: the placement arithmetic behind a proven outside miss is a parameter.
- Ledger.HeldInputLedger.Advance: a timer that runs out releases at that moment; a delay of its thread is in LedgerReentrant only.
- ScratchLease.CreatorsAlwaysGetTheirLock: a creator's open or flock failing for another reason than contention is no step; it would leave the directory without a lease, as a refused marker does.
- HaltStore.HaltDirectory.RecordHalt: a write that fails raises in the caller, and floats that are not finite are not written; both are left out.
- HaltStore.HaltDirectory.ListHalted: the names come in no particular order.
- HaltStore.HaltDirectory.ClearAll: a file keeps the same permissions throughout, and running out of memory is left out.
- HaltSessions.HaltReachesOtherSessions: needs the record not to be removed before it is looked for; the witness beside it shows why.
- Matching of deliveries and registration of events in the coexistence check, its quiet timing, and the qualification of rows: lookups over recorded data that no listed protocol depends on.
- Settings, discovery, doctor report, demos, wire checks and monitor selection: plain input and output.
