# Verified model of the Warpmetal agent runtime's protocols

The runtime runs agent sandboxes on a host. Its hardest logic keeps durable rows, containers and an
in-sandbox helper in step although any store write, podman command or helper call may fail, lose its answer
or be cut by a crash. This project models that logic in Dafny 4.11, one module for each component, and proves
what each keeps over every run. `dafny verify dfyconfig.toml` checks it.

| file | component | main results |
|---|---|---|
| `BoundaryProtocol.dfy`, `ContinuityCoordinator.dfy` | continuity operations: barrier rows, reports, tombstones, the helper's boundaries | one acquire per operation ever; a held boundary has a row; deletions are justified |
| `ContinuityService.dfy` | captures that pause their container, checkpoints | a container a capture paused is backed by a row that may hold it, and by exactly one if captures wait until none may; thaws are owned; exactly when a capture, a checkpoint and a recovery succeed; interrupted checkpoints end in their turn, and exactly when as uninterrupted ones |
| `Handoff.dfy` | continuation handoffs and their release | `prepare_handoff` is never sent to a helper that holds a session; exactly which preparations can still finish; which states have no way out |
| `Continuation.dfy` | continuations and their release | one dispatch; what a durable release outcome says about the baseline |
| `AuthorityBoundRecovery.dfy` | `Recover` and `RecoverCurrent` of the continuation controller | equal when the manifest names every pending row; unnamed rows untouched |
| `ContainerReplacement.dfy` | replacing a container under a backup name | the workload is never lost and stays in its container or the target; an ambiguous state is left alone under every fault; convergence on rerun, exactly |
| `ExitTrailer.dfy` | the in-band exit trailer of a session stream | recognised exactly, over any chunking; inverse of the server's print |
| `NetworkHelpers.dfy` | which network helper belongs to which cell | two cells never claim one helper; the three conditions that needs |
| `Ordering.dfy`, `CanonicalJson.dfy` | the canonical encoder behind digests | parsed back; injective; the shortest spelling; one digest, one envelope |
| `Guidance.dfy` | guidance snapshots of manager runs | revisions 1, 2, 3 …; one attempt; nothing after a final state, as runs join and move on |
| `Sessions.dfy` | sessions of access grants | each channel closed once, no identifier reused before the counter has gone round, nil means ended |
| `Collector.dfy` | the change cursor of a monitored source | changes acknowledged once and in order, each after its finding was submitted; in two different batches only after a retirement |

## How failures are modelled

Every effect (a store write, a podman command, a helper call) is a method that chooses nondeterministically
whether it happens and whether its answer arrives; after a crash (`alive` is false) the remaining effects of a
call do nothing, so the state a call leaves ranges over every point at which it can stop. `smooth`, `faultless`
and `crashOnly` stay true while nothing (or nothing but a crash) goes wrong, and only an effect that fails
lowers them, never a decision to refuse; they are there to state exactly what a call does when nothing fails
(for the continuity service, when it ends with `crashOnly && alive`). `storing` stays true while
no store call fails, whatever the other commands do, and `faults` counts the podman commands that failed.

Assumptions, beyond what each module's header says:

- Store rows are written atomically; operation transitions compare the row's current phase, guidance compares
  the revision, the insight outbox holds one row per source, and retirement tombstones are never removed.
- A helper call takes effect before it answers or is reported lost, never after, and its answers are true.
- Calls that the runtime serializes by a mutex do not overlap; nothing outside the modelled steps pauses
  containers or edits rows.
- A hash is not assumed injective: the result that needs it asks only that the two texts at hand do not collide.

## Where the code does less than its documentation says

- One durable operation per paused container is not kept: a capture whose pause fails goes to
  `recovery_required`, still without knowing whether it paused (internal/continuity/service.go:231-235), and
  another capture of the same sandbox may pause the container before recovery. Both rows may then hold it
  (`TwoHolders`). A capture's row is the only one exactly when no row of that sandbox could hold the container
  at the call (`Freeze`, `HolderAlone`); captures admitted only then keep one holder over every history
  (`GuardedHistory`).
- A row in `recovery_required` waits for an operator, and nothing in the runtime moves it on
  (service.go:488-497): it is the same after every call, and no recovery succeeds while it is there
  (`WaitsForOperator`, `Serve`), so neither does the coordinator's, which begins with that one
  (coordinator.go:570-573). `Recover` says exactly when a recovery in which no command fails has no error.
- Recovery decides interrupted checkpoints in the order of their identifiers, and one may take the last of its
  sandbox's quota from the next (`QuotaRace`). Each ends with its verdict over the checkpoints accepted before
  its turn, through any crashes of any recoveries (`Recover`, `InterruptedCheckpoint`), which is its own verdict
  unless that was success and those leave it no place (`TurnMatters`).
- A batch that was submitted, lost its answer and was retired under a newer policy leaves the cursor in place
  (internal/insights/collector.go:112-117, 133-156): its changes are collected and submitted again
  (`RetiredIsReportedAgain`). Only then are two different submitted batches about one change (`TraceShares`).
- After 2^64 sessions identifiers repeat, and an addition can push a running session of the same grant out of
  the table: exactly the one whose identifier it takes (`Overtaken`).
- `Coordinator.RecoverCurrent` compares a request it builds with one decoded from JSON
  (internal/continuity/coordinator.go:698-713). The built one holds an `int` and structs, the decoded one a
  `float64` and objects, so the comparison fails for every stored barrier. `RecoverCurrent` is modelled for any
  comparison, with the code below it, and with the code's own it is proved to change nothing and to succeed
  exactly when the manifest names no stored barrier (`NeverMatchesStored`, `RecoverCurrent`).
- `Recover` deletes a barrier on `boundary_missing` and leaves the report `applying`
  (coordinator.go:595-599). A recovery that succeeds leaves so exactly the operations that were applying and whose
  boundary was not held (`Recover`, `RecoverAfterCut`); they stay so for good (`Serve`).
- A handoff whose record says `workspace_registered` (or any phase, for an accepted restore) while the helper
  holds no session can never finish: recovery only looks (s2bhandoff.go:1030-1068). Nor can one whose session
  was used up before the report was published. `StuckInEveryPhase` and `UsedUpFirst` exhibit both,
  `NoWayOutExactly` says that these are exactly the unfinished handoffs that recovery can complete in no
  surroundings, and `History` proves them permanent. A handoff release that was recorded but did not reach the
  helper (`ReleaseCanBeLost`) is not sent again either (`RecoverRelease`, `History`).
- A continuation whose one dispatch was lost before it reached the helper, or whose failure could not be
  recorded, stays pending for good (`PendingWithoutBaseline`, `Continuation.Controller.History`).
- The guard against helpers of other cells is empty when the container listing fails, while tree, path,
  control-group and argument evidence still count (network_helper.go:148-152, 257-260). Without each cell's
  listing of the other a helper can be claimed twice (`AllThreeNeeded`).
- Canonical numbers beyond 64-bit integers are written as floats, so different trees may share a text
  (agentkit.go:683-690); `EqualTexts` says exactly which, `FloatsCollapse` gives two.

## Model

| member | source | states |
|---|---|---|
| BoundaryProtocol.LawfulPrefix | internal/continuity/coordinator.go:303-413 | whatever a crash leaves of a lawful run is a lawful run |
| BoundaryProtocol.ConcernsOnly | internal/continuity/coordinator.go:303-413 | entries about one operation leave every row, tombstone and boundary of every other one alone |
| BoundaryProtocol.AlwaysSound | internal/continuity/coordinator.go:303-413 | the inductive invariant of every lawful run, per operation |
| BoundaryProtocol.HeldImpliesDurable | internal/continuity/coordinator.go:338-404 | at every point a boundary the helper holds has a durable barrier row, and its operation is neither accepted, failed nor retired |
| BoundaryProtocol.DeletionJustified | internal/continuity/coordinator.go:346-404 | every barrier deletion follows, after the last acquire, an answer that the boundary was refused, released or missing, and nothing is held then |
| BoundaryProtocol.KnownForever | internal/state/store.go:2231-2368 | an operation with a report or a tombstone has one at every later point |
| BoundaryProtocol.IntentBefore | internal/continuity/coordinator.go:303-345 | each acquire follows its barrier intent and its `applying` report, and no earlier report or tombstone existed |
| BoundaryProtocol.AtMostOneAcquire | internal/continuity/coordinator.go:303-413 | `acquire_boundary` is dispatched at most once per operation over all applies, recoveries, retirements and crashes |
| BoundaryProtocol.StatusMoves | internal/continuity/coordinator.go:303-413 | a status only moves none, applying, one terminal status, which retirement keeps |
| BoundaryProtocol.FirstStatus | internal/continuity/coordinator.go:303-337 | the first status is applying or a failure that needed no helper |
| BoundaryProtocol.AcceptedMeans | internal/continuity/coordinator.go:371-413 | accepted implies captured, checkpointed, boundary released and barrier deleted, then and ever after |
| BoundaryProtocol.FailureMeans | internal/continuity/coordinator.go:346-404 | a failure after the start means the boundary was refused or released again; an unknown outcome means the acquire or the release was the last call and had no answer, or a recovery released the boundary; then and ever after |
| BoundaryProtocol.StrandingIsLawful | internal/continuity/coordinator.go:595-599 | a lawful log that leaves a report applying with no barrier left |
| ContinuityCoordinator.NeverMatchesStored | internal/continuity/coordinator.go:698-713 | no built request equals any decoded one |
| ContinuityCoordinator.Coordinator.ApplyOperation | internal/continuity/coordinator.go:303-413 | only lawful entries, all about this operation; a known operation is untouched; accepted only while the instance of the boundary is registered; when nothing fails, with a usable workspace the exact sequence of steps, and without one exactly the failure report |
| ContinuityCoordinator.Coordinator.AcquireAndCapture | internal/continuity/coordinator.go:338-413 | intent, applying, acquire, receipt, capture in that order, ending in a terminal report |
| ContinuityCoordinator.Coordinator.NotAcquired | internal/continuity/coordinator.go:346-370 | a refusal deletes the intent and is reported failed; no answer keeps the barrier and is reported unknown |
| ContinuityCoordinator.Coordinator.CaptureUnderBoundary | internal/continuity/coordinator.go:371-404 | from a held boundary to a terminal report that says which step failed; nothing is captured of a workspace that is not the one the boundary is for |
| ContinuityCoordinator.Coordinator.RecoverBarrier | internal/continuity/coordinator.go:570-619 | one barrier: missing loses its row only, held is released first and its applying report becomes unknown; no acquire |
| ContinuityCoordinator.Coordinator.Recover | internal/continuity/coordinator.go:570-619 | success leaves no barrier and no boundary; a report that was applying and held becomes `outcome_unknown`, every other one stays; stranded are exactly the applying operations whose boundary was not held |
| ContinuityCoordinator.Coordinator.RecoverCurrent | internal/continuity/coordinator.go:669-748 | for any comparison: unnamed rows and boundaries untouched; on success named barriers and boundaries gone and named reports exactly as `Recover` makes them; no acquire; for the code's comparison nothing changes, and without faults success exactly when no stored barrier is named |
| ContinuityCoordinator.Coordinator.RecoverNamed | internal/continuity/coordinator.go:694-745 | the loop over the stored barriers: named ones recovered as `Recover` does, the others passed over |
| ContinuityCoordinator.Coordinator.RecoverNamedBarrier | internal/continuity/coordinator.go:694-745 | a mismatch or a foreign report refuses without effect; otherwise the barrier's recovery |
| ContinuityCoordinator.Coordinator.RetireAcknowledged | internal/continuity/coordinator.go:190-251 | a row that leaves was terminal, its authority owned, and its operation in no barrier, not in the manifest and not unfinished locally, and it is kept as a tombstone; either every such row without another tombstone leaves or none does |
| ContinuityCoordinator.Serve | internal/continuity/coordinator.go:190-619 | one call of any kind keeps the invariant, extends the log, leaves stranded operations stranded, and retires only what a retirement's own arguments allow |
| ContinuityCoordinator.RecoverAfterCut | internal/continuity/coordinator.go:595-599 | a process starts on what a crash after a dispatch that did not arrive left, and recovers: on success, and always without faults, the operation is stranded |
| ContinuityCoordinator.History | internal/continuity/coordinator.go:190-413 | any history from an empty store: one acquire per operation, everything held has a row, every tombstone was terminal, owned and referred to by nothing at some retirement |
| ContinuityService.FindAfterAccept | internal/state/store.go:1796-1901 | an accepted checkpoint is found again under its identifier |
| ContinuityService.AcceptKeepsVerdict | internal/state/store.go:1796-1901 | accepting a checkpoint does not change what it comes to, quota or no quota, unless it is collected in between |
| ContinuityService.Service.Capture | internal/continuity/service.go:148-305 | a receipt means a captured row, a verified capture and the container as found; a replay of a finished capture touches nothing; if no store call fails the row is over or waits for an operator; if no command fails the container is always left as found, and a new capture succeeds exactly for a registered workspace that the boundary fits, stopped or running unpaused at a revision, whose image has this identity and which the store may keep within the policy |
| ContinuityService.NewCapture | internal/continuity/service.go:186-304 | the steps of a new capture come to exactly the condition that `Capture` states over the store, the objects and the engine |
| ContinuityService.BoundaryMeans | internal/continuity/service.go:638-670 | which boundaries fit: for an identity without an assignment nothing was admitted yet, for one with it the boundary is its own in a running workspace or names its last accepted execution in a stopped one |
| ContinuityService.CaptureAdds | internal/state/store.go:1667-1677 | a new capture adds its bytes to its own sandbox's sum and to no other |
| ContinuityService.DefaultPolicy | internal/state/store.go:1736-1753 | a sandbox without a policy has one gibibyte and twenty checkpoints |
| ContinuityService.Service.PutCapture | internal/state/store.go:1635-1699 | an equal capture is accepted again, a new one exactly when it is not collected and within the policy |
| ContinuityService.Service.Freeze | internal/continuity/service.go:206-245 | a pause is preceded by the durable pausing row and followed by a claim of this generation and revision; the row is then the only one that may hold the container if and only if none could before; if no command fails, it succeeds exactly for a running container of a positive revision and otherwise touches none |
| ContinuityService.TwoHolders | internal/continuity/service.go:231-235 | two rows, reached by allowed transitions and valid together, that may both hold one paused container |
| ContinuityService.HolderAlone | internal/continuity/service.go:206-264 | a row that comes to hold is the container's only holder if and only if the container was free |
| ContinuityService.Service.ThawOwned | internal/continuity/service.go:583-623 | gives back a pause only for the generation and revision it was taken on; if no command fails, exactly when these are registered as running and the container is paused, and otherwise exactly how the row keeps its claim; if no store call fails, whatever the engine does the row waits for an operator or the container is free |
| ContinuityService.Service.UnpauseOwned | internal/continuity/service.go:583-623 | Unpause is issued only for a record with PauseOwned and matching generation and lifecycle revision |
| ContinuityService.Service.Checkpoint | internal/continuity/service.go:307-375 | once verifying, crash or no crash, the end is the verdict of what was stored; if no command fails, a new checkpoint succeeds exactly when its object and verified capture agree, nothing of it is collected, and an equal checkpoint is there or the quota has room; a finished one is only read |
| ContinuityService.VerdictMeans | internal/continuity/service.go:336-368 | the steps of a checkpoint come to exactly the condition that `Checkpoint` states |
| ContinuityService.Service.DecideCheckpoint | internal/continuity/service.go:547-581 | the first attempt and recovery decide alike |
| ContinuityService.Service.RecoverOperation | internal/continuity/service.go:454-545 | success means the operation is over and holds nothing; an unknown pause or materialization is never called over; if no command fails, success exactly when the row ends |
| ContinuityService.Service.RecoverInterrupted | internal/continuity/service.go:472-545 | an interrupted capture or materialization: if no command fails, exactly which rows end, told by the row, the registration and the container |
| ContinuityService.Service.RecoverPause | internal/continuity/service.go:454-545 | a pause is given back only for the generation and revision it was taken on; success means the container runs and the row failed; if no command fails, success exactly when the target is still that one and paused or running |
| ContinuityService.Service.Recover | internal/continuity/service.go:454-545 | success leaves nothing interrupted and no row that may hold a container; rows that were not interrupted or wait for an operator untouched, and an error while any waits; under crashes alone every verifying row keeps its end in turn; if no command fails, no error exactly if every row ends well |
| ContinuityService.History | internal/continuity/service.go:198-304 | any history: every container a capture paused is backed by a row of that container that may hold it; a captured or failed row holds none; every thaw was owned |
| ContinuityService.Serve | internal/continuity/service.go:148-545 | one call of any kind keeps one holder per container, given that a capture finds its container free; a row that waits for an operator stays as it is and fails every recovery |
| ContinuityService.WaitsForOperator | internal/continuity/service.go:488-497 | after any calls a `recovery_required` row is the same, and none of the recoveries among them succeeded |
| ContinuityService.GuardedHistory | internal/continuity/service.go:198-304 | any history whose captures find their container free: at most one row may hold a container, and a paused one is held by exactly the row that says so |
| ContinuityService.VerdictAfterAnother | internal/state/store.go:1796-1901 | accepting another checkpoint changes a verdict if and only if it is new, of the same sandbox, and takes the room this one needs |
| ContinuityService.QuotaRace | internal/state/store.go:1796-1901 | two interrupted checkpoints that fit alone but not together: whichever is decided first succeeds and the other fails |
| ContinuityService.VerdictAfterCollection | internal/state/store.go:1803-1815 | a collection that goes further changes a verdict if and only if it was success and is about something collected |
| ContinuityService.StepKeepsEnds | internal/continuity/service.go:464-470 | recovering the first row that is still verifying, cut anywhere, or one that is not verifying, changes no row's end in turn |
| ContinuityService.TurnMatters | internal/continuity/service.go:547-581 | a row's end in turn differs from its own verdict if and only if that is success and the checkpoints accepted before its turn make it unacceptable |
| ContinuityService.TurnIsQuota | internal/state/store.go:1863-1883 | where no other row makes the same checkpoint, it is acceptable in turn if and only if it is there already or the quota still has room |
| ContinuityService.AloneInTurn | internal/continuity/service.go:547-581 | a row that no other verifying row competes with ends with its own verdict, whatever its place |
| ContinuityService.InterruptedCheckpoint | internal/continuity/service.go:307-375 | a checkpoint call cut anywhere, then any recoveries each cut anywhere: every row verifying at the cut ends in its turn; the checkpoint ends as the uncut call if and only if the checkpoints accepted before its turn do not crowd it out, which they never do if no other verifying row competes |
| Handoff.Controller.SetPhase | internal/state/store.go:3295-3314 | a phase is refused for a finished record or another selection and replaces nothing else |
| Handoff.Controller.MaterializeNew | internal/continuity/s2bhandoff.go:1128-1148 | fills a blank destination or accepts a full one; a half-filled one is refused for good |
| Handoff.Controller.Prepare | internal/continuity/s2bhandoff.go:921-933 | may be called only while the helper holds no session |
| Handoff.Controller.RealizeHandoffWorkspace | internal/continuity/s2bhandoff.go:1085-1163 | success means the phase is materializing and the workspace complete; exactly when it succeeds |
| Handoff.Controller.CompleteHandoffWorkspace | internal/continuity/s2bhandoff.go:908-935 | registers, sends at most one preparation, and publishes the report of the session it made; unless a write of the row fails, a preparation that was sent ends ready or as `recovery_required` |
| Handoff.Controller.PublishHandoffReady | internal/continuity/s2bhandoff.go:1280-1316 | the durable report is the prepared session's, and the mapped source follows it |
| Handoff.Controller.RecoverMaterializedHandoff | internal/continuity/s2bhandoff.go:945-978 | a materializing record proves nothing was sent; recovery completes exactly when its conditions hold |
| Handoff.Controller.RecoverRegisteredHandoff | internal/continuity/s2bhandoff.go:986-1028 | sends again only after the helper showed no session, publishes a prepared one |
| Handoff.Controller.RecoverHandoff | internal/continuity/s2bhandoff.go:1030-1068 | by mode and phase, exactly when an undisturbed recovery completes; nothing is sent from allocating or workspace_registered; a stuck record stays as it is |
| Handoff.StuckInEveryPhase | internal/continuity/s2bhandoff.go:1030-1068 | a sound state without a way out in each unfinished phase but the one whose recovery prepares again |
| Handoff.UsedUpFirst | internal/continuity/s2bhandoff.go:986-1028 | a sound state whose session the work consumed before the report was published, without a way out |
| Handoff.NoWayOutExactly | internal/continuity/s2bhandoff.go:945-1068 | an unfinished preparation has no way out if and only if no surroundings let an undisturbed recovery complete it |
| Handoff.Controller.ApplyHandoff | internal/continuity/s2bhandoff.go:877-904 | the exact condition of success for a new, an unfinished and a finished handoff; at most one preparation, never to a helper with a session |
| Handoff.Controller.RecoverReady | internal/continuity/s2bhandoff.go:236-254 | a finished record is never rewritten; its source is registered again from the stored report |
| Handoff.Controller.ApplyRelease | internal/continuity/s2bhandoff.go:1458-1490 | a release is sent once; success means the session is released |
| Handoff.Controller.RecoverRelease | internal/continuity/s2bhandoff.go:1492-1528 | recovery only looks and completes exactly when the session is shown released |
| Handoff.ReleaseCanBeLost | internal/continuity/s2bhandoff.go:1492-1528 | a sound state of a published handoff whose recorded release has not reached its prepared session |
| Handoff.Controller.History | internal/continuity/s2bhandoff.go:877-1068 | any passes, crashes and surroundings: one session at most, early phases prove none was asked for, reports and released outcomes are final, stuck stays stuck, a lost release stays lost and is not sent again |
| Continuation.ReleasedMeans | internal/continuity/s2controller.go:430-524 | a durable released outcome means a released baseline, or none and no dispatch ever |
| Continuation.Controller.SendPrepare | internal/continuity/s2controller.go:389-402 | `prepare_continuation` may be sent only if it never was |
| Continuation.Controller.ApplyContinuation | internal/continuity/s2controller.go:366-403 | a repeated application sends nothing; a changed workspace fails without any dispatch; exact success condition |
| Continuation.Controller.RecoverContinuation | internal/continuity/s2controller.go:405-428 | completes, without faults, exactly when the authority is current and the baseline is prepared or consumed |
| Continuation.PendingWithoutBaseline | internal/continuity/s2controller.go:389-428 | a pending preparation without a baseline is sound, sent once or never |
| Continuation.Controller.ApplyRelease | internal/continuity/s2controller.go:430-455 | exact success condition; only a prepared baseline is released |
| Continuation.Controller.RecoverRelease | internal/continuity/s2controller.go:457-490 | a released baseline ends released, a consumed one as failed with `continuation_consumed`; exact success condition |
| Continuation.Controller.DispatchRelease | internal/continuity/s2controller.go:492-524 | released is recorded only for a released baseline |
| Continuation.Controller.History | internal/continuity/s2controller.go:366-524 | any passes: one dispatch at most, release outcomes say what they mean and are final, consumed and released baselines are final, a lost dispatch stays pending |
| AuthorityBoundRecovery.NamedKeeps | internal/continuity/s2controller.go:234-310 | authority-bound recovery of a domain changes only pending, named rows, and no manifest |
| AuthorityBoundRecovery.NamedIsPending | internal/continuity/s2controller.go:234-310 | in one domain, naming every pending row exactly gives the unrestricted recovery |
| AuthorityBoundRecovery.SameWhenAllNamed | internal/continuity/s2controller.go:130-310 | over all three domains the two recoveries have the same effect and result |
| AuthorityBoundRecovery.UnnamedUntouched | internal/continuity/s2controller.go:234-310 | finished and unnamed rows are exactly as before |
| AuthorityBoundRecovery.ConflictFails | internal/continuity/s2controller.go:263-304 | a pending row named with another manifest makes recovery fail |
| AuthorityBoundRecovery.NamedLast | internal/continuity/s2controller.go:263-304 | what one more operation of the list adds: nothing after a failure, nothing if it is finished or not named, a refusal for another manifest, else its step and that step's result |
| AuthorityBoundRecovery.NamedOkExactly | internal/continuity/s2controller.go:263-304 | success if and only if every pending named operation has its own manifest and its step succeeds in the state that the ones before it leave |
| AuthorityBoundRecovery.S2Controller.Recover | internal/continuity/s2controller.go:130-173 | the loops over the stored records compute the unrestricted recovery |
| AuthorityBoundRecovery.S2Controller.RecoverCurrent | internal/continuity/s2controller.go:234-310 | the loops compute the authority-bound recovery, with both results above |
| ContainerReplacement.ConvergesExactly | internal/containers/podman.go:415-518 | an undisturbed call ends replaced, or restored for a forced cell, from exactly the tables that are not ambiguous, and leaves an ambiguous one as it is |
| ContainerReplacement.UndisturbedExactly | internal/containers/podman.go:415-518 | where an undisturbed call ends, told by what stood under the two names |
| ContainerReplacement.ResumableConverges | internal/containers/podman.go:415-518 | from whatever an earlier attempt left, an undisturbed rerun converges, restoring only without a visible witness |
| ContainerReplacement.Podman.VerifyReplacementReady | internal/containers/podman.go:527-539 | ready implies the target digest and, for a forced cell, the observed witness |
| ContainerReplacement.Podman.RollbackReplacement | internal/containers/podman.go:541-574 | never loses the workload; success means the retained container is back under the name and no backup; it fails only if a command of its own does |
| ContainerReplacement.Podman.ResumeReplacement | internal/containers/podman.go:442-472 | both names present: the backup goes only for the target, else a forced cell rolls back, else nothing is touched |
| ContainerReplacement.Podman.MoveAside | internal/containers/podman.go:468-481 | the serving container stops and takes the backup name, or is still there |
| ContainerReplacement.Podman.RenameAside | internal/containers/podman.go:473-481 | the stopped container has the backup name, or is back in the state asked for, or an answer was lost |
| ContainerReplacement.Podman.CreateReplacement | internal/containers/podman.go:483-518 | creates, places and verifies the target before the backup goes, else rolls back: one failing command always ends rolled back, or with the target serving |
| ContainerReplacement.Podman.ReplaceContainer | internal/containers/podman.go:415-518 | under every fault one name survives, every removal is justified, and an ambiguous state or a refusal leaves every container alone; without faults the exact table, outcome and removals, told by the two names |
| ContainerReplacement.RetryUntilUndisturbed | internal/containers/podman.go:415-574 | any number of disturbed attempts and then one undisturbed call: replaced, with the witness for a forced cell, or for a forced cell restored; the workload is in the container that had it at the start or in the target |
| ExitTrailer.StatusStateMeaning | cmd/warpmetal-sandbox-gateway/main.go:253-277 | the status scan accepts one to three digits and a newline, and nothing else |
| ExitTrailer.LiveGrowth | cmd/warpmetal-sandbox-gateway/main.go:253-277 | growing a live candidate by a byte keeps the classifier exact although it does not recheck the prefix |
| ExitTrailer.CandidateStep | cmd/warpmetal-sandbox-gateway/main.go:188-243 | how the one held candidate moves with each byte |
| ExitTrailer.TrailerIsCandidate | cmd/warpmetal-sandbox-gateway/main.go:188-243 | a final trailer is always exactly the held candidate |
| ExitTrailer.TrailerUnique | cmd/warpmetal-sandbox-gateway/main.go:188-243 | a stream ends with at most one trailer |
| ExitTrailer.CopyReads | cmd/warpmetal-sandbox-gateway/main.go:188-243 | whatever the chunking, all that was read is written or held as the candidate |
| ExitTrailer.CopySessionOutput | cmd/warpmetal-sandbox-gateway/main.go:188-243 | status and output exactly as the final trailer says, the whole stream without one, a prefix on any failure |
| ExitTrailer.DecimalValue | internal/access/access.go:401 | the printed status has one to three digits and that value |
| ExitTrailer.SessionRoundTrip | internal/access/access.go:1270-1282 | the client's split of a session's stream is the end of its output, and the status the command's exit code from 1 to 255, zero without an error, and else one |
| NetworkHelpers.OneDistance | internal/containers/network_helper.go:393-408 | in a forest a process lies at one distance below another |
| NetworkHelpers.CollectProcessTree | internal/containers/network_helper.go:393-408 | the depth-bounded walk with its shared visited set finds exactly the descendants at distance 1 to 8 |
| NetworkHelpers.Trimmed | internal/containers/network_helper.go:330-331 | trimming takes off exactly the spaces around |
| NetworkHelpers.SplitExactly | internal/containers/network_helper.go:330 | the parts are exactly the stretches between separators |
| NetworkHelpers.ComponentNamesMeans | internal/containers/network_helper.go:330-341 | exactly eight spellings of a control-group component name a container |
| NetworkHelpers.NetnsPathIsFirst | internal/containers/network_helper.go:375-391 | the namespace path is the one that the first place giving any gives |
| NetworkHelpers.ComponentNamesOne | internal/containers/network_helper.go:326-342 | one control-group component names at most one container |
| NetworkHelpers.TargetContainerNetns | internal/containers/network_helper.go:203-216 | a namespace used for attribution is the container's own and not zero |
| NetworkHelpers.HelperOwnedByOtherContainer | internal/containers/network_helper.go:257-283 | true exactly when some running peer has a tie to the helper |
| NetworkHelpers.RunningPeerContainers | internal/containers/network_helper.go:294-320 | the peers are exactly the other running containers the listing shows |
| NetworkHelpers.AttributedMeans | internal/containers/network_helper.go:125-283 | attributed are exactly the live slirp4netns and pasta processes that nothing ties to another running container and something exact ties to this one |
| NetworkHelpers.ObserveNetworkHelpers | internal/containers/network_helper.go:125-174 | the helpers returned are, in order, exactly those attributed |
| NetworkHelpers.HelpersAreAttributed | internal/containers/network_helper.go:150-172 | every helper returned is attributed, and every attributed one is returned |
| NetworkHelpers.OnlyTheTreeIsLeft | internal/containers/network_helper.go:222-283 | a helper claimed by two cells, one of which lists the other, is in the first one's process tree, below a recognized conmon |
| NetworkHelpers.CellsApart | internal/containers/network_helper.go:125-283 | cells that list each other, with separate conmon trees, never claim the same helper |
| NetworkHelpers.ObserveTwoCells | internal/containers/network_helper.go:125-174 | the two observed helper lists are disjoint |
| NetworkHelpers.AllThreeNeeded | internal/containers/network_helper.go:148-152 | disjointness holds for every process table if and only if both listings and the separation are given |
| Ordering.BeforeExactly | internal/agentkit/agentkit.go:704-709 | the order of keys: at the first place where two differ, the smaller character or the end |
| Ordering.AscendingUnique | internal/agentkit/agentkit.go:704-709 | the ascending listing of a key set is unique, whatever the map's order |
| Ordering.SortStrings | internal/agentkit/agentkit.go:704-709 | keys gathered in any order sort to that listing |
| CanonicalJson.QuoteReads | internal/agentkit/agentkit.go:728-754 | a quoted string reads back, up to its closing quote, by section 7 of RFC 8259 |
| CanonicalJson.ShortestSpelling | internal/agentkit/agentkit.go:728-754 | no text that reads as a string is shorter than the quoted one, and none as short has its escapes in lower case but the quoted one |
| CanonicalJson.SpellingUnique | internal/agentkit/agentkit.go:728-754 | the quoted string is the one text that reads as it, is shortest, and has its escapes in lower case |
| CanonicalJson.KeptIntegers | internal/agentkit/agentkit.go:681-685 | written as they are: exactly the integers of 64 bits |
| CanonicalJson.RoundTrip | internal/agentkit/agentkit.go:675-726 | the text of any encodable tree, followed by any delimited text, parses to the tree (numbers as rendered) and that text |
| CanonicalJson.Injective | internal/agentkit/agentkit.go:675-726 | for trees with 64-bit integer tokens: equal texts if and only if equal trees, and the text parses back to the tree |
| CanonicalJson.EqualTexts | internal/agentkit/agentkit.go:675-726 | for all encodable trees: equal texts if and only if equal up to the rendering of numbers |
| CanonicalJson.SelfDelimiting | internal/agentkit/agentkit.go:675-726 | no text of a value continues another one's |
| CanonicalJson.FloatsCollapse | internal/agentkit/agentkit.go:683-690 | two different trees with one text, outside 64-bit integers |
| CanonicalJson.AppendCanonicalString | internal/agentkit/agentkit.go:728-754 | the loop appends the quoted string, the shortest text that reads back as it, with lower-case escapes |
| CanonicalJson.EncodeCanonical | internal/agentkit/agentkit.go:675-726 | the buffer gains the canonical text; failure exactly when a number does not parse |
| CanonicalJson.Canonical | internal/agentkit/agentkit.go:657-673 | the text depends on the decoded tree alone and parses back to it, a string in its shortest spelling; fails exactly when the value does not marshal and decode or a number does not parse |
| CanonicalJson.ValidEnvelopeDigest | internal/agentkit/invocation.go:173-193 | accepted exactly when the bytes decode to an envelope that bears the digest of its other fields; each refusal exactly |
| CanonicalJson.SameDigestSameEnvelope | internal/agentkit/invocation.go:173-193 | two envelopes accepted with one digest are the same, unless their texts collide |
| Guidance.UnknownValidates | internal/manager/guidance.go:261-329 | the fallback snapshot validates exactly when the proposal's digest is well shaped |
| Guidance.FinalIsLast | internal/manager/guidance.go:356-391 | a final snapshot is the last; every earlier one is pending or unknown |
| Guidance.SettledStays | internal/manager/guidance.go:507-525 | once a run's last snapshot is final, every later history of the run is the same |
| Guidance.ReviewKeeps | internal/manager/coordinator.go:570-660 | a run that joins, or that its review moves on, keeps every run's history and posts |
| Guidance.Coordinator.PutReview | internal/manager/coordinator.go:570-660 | a review adds a run, or changes the phase of one and, until there is an attempt, its report, and nothing else |
| Guidance.Coordinator.PutManagerGuidance | internal/state/manager.go:569-589 | a snapshot is taken only at the next revision |
| Guidance.Coordinator.PersistGuidance | internal/manager/guidance.go:370-391 | publishes only valid, new, allowed snapshots at the next revision, also from a stale copy of the run; a valid one is refused only after a final one that says something else |
| Guidance.Coordinator.CallGuidance | internal/manager/guidance.go:201-221 | an attempt may be posted only if it is durable and was never posted |
| Guidance.Coordinator.DispatchGuidance | internal/manager/guidance.go:226-241 | the attempt is durable first; a valid answer is published, and without an answer an unknown outcome of the proposed digest is |
| Guidance.Coordinator.RecoverRun | internal/manager/guidance.go:449-481 | an attempted run without a snapshot gets one, unless the store fails, and where the helper was not heard one that says unknown, of the proposed digest; final runs are left alone |
| Guidance.Coordinator.DispatchPendingGuidance | internal/manager/guidance.go:400-444 | exactly the qualified, acknowledged, automatic recommendations that were not attempted are attempted, once, and published on success; no other run changes |
| Guidance.Coordinator.RecoverPendingGuidance | internal/manager/guidance.go:449-481 | posts nothing; a pass that completes leaves no attempted run without a snapshot and, without faults, has looked up every open one |
| Guidance.Coordinator.FenceOffGuidance | internal/manager/guidance.go:485-503 | asks to cancel exactly the pending guidance of the sandbox, all of it on success, and posts nothing |
| Guidance.Coordinator.GuidanceSettled | internal/manager/guidance.go:507-525 | true exactly when no automatic run of the sandbox has an attempt or snapshot that is not final |
| Guidance.Coordinator.History | internal/manager/guidance.go:226-444 | runs join and their reviews move on, between any passes and crashes: gapless revisions, consecutive snapshots differ and follow the transitions, at most one post per run, a run with a final snapshot keeps its history whatever runs join later |
| Sessions.AddKeeps | internal/access/access.go:1317-1329 | adding keeps the table equal to the live sessions, under a fresh identifier |
| Sessions.FinishKeeps | internal/access/access.go:1331-1341 | finishing any identifier keeps it so, and drops a grant with its last session |
| Sessions.Overtaken | internal/access/access.go:1317-1329 | an addition puts a session out of the table, still open, if and only if it takes that session's identifier |
| Sessions.Gateway.AddSession | internal/access/access.go:1317-1329 | the session is in the table under the next identifier with a channel of its own, every other identifier as before; none is reused before the counter has gone round |
| Sessions.Gateway.FinishSession | internal/access/access.go:1331-1341 | the session the table has under the identifier finishes, and no other; until the counter has gone round that is the live session of that number |
| Sessions.Gateway.Close | internal/access/access.go:1331-1341 | a channel may be closed only while it is open |
| Sessions.Gateway.BeginTerminate | internal/access/access.go:1284-1291 | the snapshot has every session the table has for the grant, each cancelled; until the counter has gone round it is exactly the grant's live sessions |
| Sessions.Gateway.Await | internal/access/access.go:1292-1298 | one select: returned means the whole snapshot has finished; a finished one always gets on |
| Sessions.Gateway.TerminateGrant | internal/access/access.go:1284-1300 | with any steps of others in between, nil means that every session the table had for the grant has finished: until the counter has gone round, every live one |
| Collector.ChangesIncrease | internal/insights/collector.go:302-381 | along any chain of acknowledged pages the change sequences strictly increase and the cursor has passed them |
| Collector.CursorNeverDecreases | internal/insights/collector.go:302-381 | the cursor never decreases and what was acknowledged stays acknowledged first |
| Collector.TraceShares | internal/insights/collector.go:112-156 | two different submitted batches report one change only if the earlier was retired unacknowledged |
| Collector.RetiredIsReportedAgain | internal/insights/collector.go:112-156 | stored, submitted, retired, stored and submitted again: two batches with the same changes |
| Collector.ReadChanges | internal/insights/collector.go:346-360 | the loop accepts exactly the well-formed, valid, short enough pages |
| Collector.HeaderMeans | internal/insights/collector.go:324-340 | which response headers are accepted |
| Collector.ChangesMean | internal/insights/collector.go:346-360 | which changes are: at most 64, each valid and after the one before, the last at the page's end |
| Collector.GapReasons | internal/insights/collector.go:458-470 | the two known gap reasons keep a name, any other is a monitor gap |
| Collector.SentWhereReported | internal/insights/collector.go:362-390 | in any sound trace, every acknowledged change's finding is in its place in a batch that was submitted |
| Collector.Source.PutOutbox | internal/state/store.go:3648-3686 | while a batch is pending only that batch is accepted |
| Collector.Source.Acknowledge | internal/state/store.go:3785-3811 | the cursor moves with the batch's removal or not at all; a wrong receipt changes nothing |
| Collector.Source.PublishDisabled | internal/insights/collector.go:246-288 | a disabled notice is exactly this batch, reports no change and moves no cursor past one |
| Collector.Source.CollectSource | internal/insights/collector.go:290-390 | an invalid response changes nothing; what is submitted carries exactly the response's findings, generation, position, status and gap, and the cursor follows it; without faults it succeeds exactly for acceptable responses that fit |
| Collector.Source.Pass | internal/insights/collector.go:92-191 | a pass only extends the chain; without faults it acknowledges an exact pending batch, and otherwise collects exactly when the response is acceptable |
| Collector.History | internal/insights/collector.go:290-390 | any passes: acknowledged changes strictly increase, none twice, across journal generations and lost answers, and the finding of each was submitted in its place; two submitted batches share a change only after a retirement |

## Left out

- HTTP and wire plumbing, configuration, daemon tick, podman argument building, process execution, `/proc` reads, file ownership and `fsync`: oracles or a small command table.
- Attestation wrappers of containers, version comparison, capacity arithmetic, mount parsing, report freshness: easy members only.
- Long field-by-field comparisons (service authority, session handoff, report matching): one predicate, flag or manifest equality each.
- Real time: a deadline or a watchdog is a failure that may happen at any point.
- Materialize and restore steps of the local service and `applyRestore`: only their recovery, or one step that may do anything to its row.
- The progress of a garbage collection: `Acceptable` refuses what is being collected, and reads the quota from the sandbox's policy, but both change only between calls, and collected objects stay readable; a collection between a crash and the recovery changes a verdict as `VerdictAfterCollection` says.
- Capture without an engine, and containers paused by anyone but a capture: absent.
- A capture's object identifier and object count, error messages, a checkpoint's pin and age and the work's pointer to its last checkpoint: absent; what the object store makes of a workspace within a budget is a table that may change between calls.
- CanonicalJson.EncodeCanonical: text is a sequence of Unicode characters, so the UTF-8 encoding of it is not modelled; the float rendering is a parameter that writes number characters; the library's sort is an insertion sort.
- CanonicalJson.ValidEnvelopeDigest: marshalling and decoding by the JSON library are parameters; a tree that was decoded is taken to be read back as itself.
- NetworkHelpers.CellsApart: both cells are observed against one reading of the process table; processes that start or end in between are not modelled.
- Sessions.Gateway.FinishSession: after the 64-bit counter has gone round, it finishes the session that the table then has under the identifier, which may not be the caller's.
- Guidance.Coordinator.PutReview: the store takes any row with the same manifest; reviews write up-to-date copies, and leave the report of an attempted run as it is.
- Collector.Source.CollectSource: checks on one finding and the size of an encoded batch are parameters; the authority checks are a flag.
- AuthorityBoundRecovery.S2Controller.Recover: the step that recovers one operation is a function of the state before it, so both recoveries meet the same luck; the steps themselves are in `Continuation.dfy`.
- Handoff.Controller.History: one handoff and its release; other handoffs appear only as a claim on its target work or source.
- ContinuityCoordinator.Coordinator.ApplyOperation: the local capture and checkpoint inside it succeed or fail as a whole here; `ContinuityService.dfy` models them.
