# Laundry machine backend: verified models

The backend tracks shared washers and dryers. Power readings from Matter plugs and state reports from
ThinQ dryers drive a status and a usage session per machine; users register for sessions, confirm that a
previous one is over, and subscribe to full laundry rooms. This project models the concurrent protocols in
that flow and proves what they keep over every run.

Each protocol appears in two forms. A *step machine* on values has one step per stretch of code between
two awaits, or per SQL statement; an event that cannot happen is a no-op, so every list of events is an
interleaving, and the theorems range over all lists. Beside it stands a *class* with the service's own
fields, whose methods are those stretches; each method's contract says that it takes exactly one step of
the machine and what it leaves alone.  What a step does is pinned by outcome lemmas that speak of rows, power
and literal values rather than of the step functions.  `Valid` is the machine's invariant on the object's fields, and every
method that completes a step requires and ensures it; in `MachinePower` the stretches are resumed by
`Resume`, which does.

| file | what it holds |
|---|---|
| `BoundedQueue`, `BoundedConcatMap` | the bounded serial delivery operator: every run, and the operator itself |
| `ListenerStream` | one operator per MAC under one listener, and when it has drained |
| `PowerPipeline`, `PowerOutcomes`, `MachinePowerService` | readings, idle timer and the chain of status updates of one MAC; the service's maps over all MACs |
| `UsageTable`, `UsageOutcomes`, `UsageLocks`, `UsageTransactions`, `UsingMachineRepository` | usage operations one after another, their locking transactions interleaved, and the operations on a table updated in place |
| `LaundryRoom`, `LaundryRoomCalls`, `NotificationServiceSteps` | subscribing against announcing; the same on tables |
| `Connectivity`, `MachineConnectivity` | reading an observation history; the monitor that never keeps one |
| `MachineIndex`, `MachineOutcomes`, `MachineServiceIndex`, `CommissionRaces` | the machine table and the in-memory index by MAC; what can go wrong between their statements |
| `ThinqMerge`, `ThinqPushes`, `ThinqLifecycle`, `ThinqRemapping`, `ThinqBackoff`, `ThinqIngestion` | report merging, per-device push chains, states to sessions, admin remapping, backoff, and their stateful sides |

## What the proofs turned up

- A successful subscription can be deleted without the subscriber having been told after the success: a
  machine frees and is taken again between the insert and the second count. `SubscriptionsAreKept` gives the
  exact step.
- A machine can become free without any announcement: when it is created, and when a patch enables it
  after another patch disabled it behind the first one's read. `RiseIsAnnounced` is the exact condition.
- A failed recording of a high reading does not disarm the idle timer (`FailedRecordingBreaksDebounce`).
- Closing a session can commit and then fail on the following machine read. Only then do cache and session
  part (`CacheFollowsSession`).
- A status update whose session close fails leaves the row IDLE and the cache active, after which updates
  to the cached status are skipped (`FailedFinishLeavesRowIdle`); `AgreementBreaksExactly` is the exact
  condition.
- A mapping patch can forget a MAC that another machine has just been commissioned with, which leaves that
  machine untracked (`LateForgetUntracks`); `TrackingIsKept` is the exact condition.  A patch that read its
  machine before the commission forgets nothing and leaves a mapped machine tracked
  (`MappedMachineStaysTracked`); `EntriesAreKept` is the exact condition.
- The comment at src/machine/machine.service.ts:496 says that an admin unmap cannot reopen usage. It can,
  between the re-check and the start (`UnmapCanReopenUsage`); `SessionsStayUnderMapping` is the exact condition.
- The comment at src/notification/notification.service.ts:193 says that failed sends survive. A send to an
  endpoint never rejects, because src/notification/services/web-push.service.ts:72-110 catches its errors;
  only the read of the user's endpoints can. The model's pushes may reject either way.
- src/machine/machine.service.spec.ts:759-777 expects a three-minute idle delay; the code uses 60 seconds
  (src/machine/machine.service.ts:42). The delay is a parameter of the model.

## Assumptions

- A SQL statement is one atomic step. A statement that meets a lock waits, which is a step that changes
  nothing, and is evaluated afresh when it proceeds. Under READ COMMITTED a waiting update rechecks only the
  rows it had found and misses rows inserted meanwhile. Evaluated as soon as the transaction it waited for
  has committed, it finds no such row (`WaitingFindsNoNewRow`), so the recheck's outcome is among the
  model's. The outcome left out is the recheck placed later: after a further start has committed, the model
  lets the update reach the new row and excludes the answer 0, which it gives only before that start.
  Reads see committed rows; an aborted transaction leaves nothing.
- The clock does not go back. A new session's start is any time up to the clock of its insert.
- Uuids are numbers that are never given out twice.
- Awaited calls into code that is not modelled (Matter, web push, HTTP) return or throw as the event says.
- The unique indexes on MAC, ThinQ device and room slot of active machines hold. The unique index on open
  sessions is not used; its content is proved. The check constraint that keeps MACs off ThinQ-mapped
  machines is used only where commissions interleave with patches; for whole operations it is proved.
- ThinQ device ids are not empty, as the request validation demands.

## Model

| member | source | states |
|---|---|---|
| LaundryRoom.NoWakeupIsLost | src/notification/notification.service.ts:42-200 | No lost wakeup, in every interleaving of creates, finishing sessions, admin patches, takers and deletions: if a free machine has only risen announced and the announcing runs' own calls have returned, then for every row of its room whose create succeeded some live run has yet to read the subscribers, or holds the row and has not finished, or had its push rejected |
| LaundryRoom.WakeupIsNeverLost | src/notification/notification.service.ts:42-200 | The general form, with unannounced rises and any failing call: the run recorded as announcing a machine's latest rise, if there is one, covers every successful row of its room, or one of its own calls failed |
| LaundryRoom.StepKeepsNoLostWakeup | src/notification/notification.service.ts:157-200 | One step of any subscriber, announcer, patch or taker keeps the no-lost-wakeup invariant |
| LaundryRoom.RiseIsAnnounced | src/machine/machine.service.ts:388-431 | A step that makes a machine free leaves no new run that has yet to read the room's subscribers exactly when it creates the machine, or is a patch that enables a machine it had read enabled |
| LaundryRoom.SubscriptionsAreKept | src/notification/notification.service.ts:42-74 | A step leaves every successful subscription with its row and untold exactly when it is not the one race: a second count that finds no machine although a run has already told the row |
| LaundryRoom.WaitingRowsSurvive | src/notification/notification.service.ts:193-199 | Over any run without that race every successful subscription keeps its row until it is told, withdrawn or ended |
| LaundryRoom.SuccessfulSubscriptionCanVanish | src/notification/notification.service.ts:58-73 | A concrete run without any failing call in which a create returns success and its row is then deleted: the washer frees and is taken again between insert and second count |
| LaundryRoom.RejectedPushesKeepTheirRows | src/notification/notification.service.ts:186-199 | Of the rows there when the pushes settle, the deletion removes exactly those of the snapshot whose push was fulfilled; the others stay |
| LaundryRoom.DeletedRowsWereReached | src/notification/notification.service.ts:193-199 | In every run, with any steps in between: a row that an announcing run deletes is among those that its own pushes reached |
| LaundryRoomCalls.WholeAnnouncement | src/notification/notification.service.ts:157-200 | An undisturbed announcement deletes exactly the rows of its room whose push was fulfilled, and none when no machine of the room is enabled, undeleted and idle |
| LaundryRoomCalls.WholeCreate | src/notification/notification.service.ts:42-74 | An undisturbed create in a full room inserts one row of its user and room, or keeps the one there is, and succeeds with it |
| LaundryRoomCalls.LateRefusal | src/notification/notification.service.ts:58-73 | A create that finds a machine free after its insert is refused and leaves no row behind |
| LaundryRoomCalls.CountStages | src/notification/notification.service.ts:76-87 | Both counts refuse exactly when the room has an enabled, undeleted machine without an open session |
| LaundryRoomCalls.FailedCreate | src/notification/notification.service.ts:48-70 | A failing call ends the create and keeps every row, the one it inserted included |
| LaundryRoomCalls.FailedAnnouncement | src/notification/notification.service.ts:162-199 | A failing read, count or deletion ends the announcement and keeps every row |
| LaundryRoomCalls.UnsubscribeKeepsOthers | libs/database/src/repositories/notification.repository.ts:133-150 | Unsubscribing removes exactly the user's own row of the room |
| LaundryRoomCalls.WholePatch | src/machine/machine.service.ts:388-431 | An undisturbed patch sets the flag it names and announces exactly when it enables what it found disabled |
| LaundryRoomCalls.ClosedSessionAnnounces | src/machine/machine.service.ts:661-691 | A closed session is announced in its machine's room unless the machine has been deleted |
| LaundryRoomCalls.MachineFlags | libs/database/src/repositories/machine.repository.ts:329-346 | Deleting, starting and finishing each change one flag of one machine and no row |
| NotificationServiceSteps.NotificationService.CountAvailableMachines | libs/database/src/repositories/machine.repository.ts:32-37 | The count is that of the enabled, undeleted machines of the room without an open session |
| NotificationServiceSteps.NotificationService.CreateLaundryRoomSubscription | src/notification/notification.service.ts:42-48 | A create begins with its first count; nothing else changes |
| NotificationServiceSteps.NotificationService.AfterFirstCount | src/notification/notification.service.ts:76-87 | The create goes on to its insert, is refused, or fails; exactly that step of the protocol |
| NotificationServiceSteps.NotificationService.AfterUpsert | libs/database/src/repositories/notification.repository.ts:113-131 | The upsert keeps the uuid of an existing row and otherwise inserts one; exactly that step |
| NotificationServiceSteps.NotificationService.AfterSecondCount | src/notification/notification.service.ts:58-73 | Success only if the second count finds no free machine; exactly that step |
| NotificationServiceSteps.NotificationService.AfterWithdrawal | libs/database/src/repositories/notification.repository.ts:179-186 | The withdrawn row is gone and the create refused; exactly that step |
| NotificationServiceSteps.NotificationService.DeleteLaundryRoomSubscription | libs/database/src/repositories/notification.repository.ts:133-150 | Removes the user's rows of the room and nothing else |
| NotificationServiceSteps.NotificationService.FinishUsingMachine | src/machine/machine.service.ts:661-664 | Closing a session frees the machine and starts an announcing run; nothing happens without an open session |
| NotificationServiceSteps.NotificationService.ReadForPatch | src/machine/machine.service.ts:388-394 | What a patch reads of the machine, with an optional new availability, is kept for its write |
| NotificationServiceSteps.NotificationService.CreateMachine | libs/database/src/repositories/machine.repository.ts:95-107 | A new machine is free at once and no run announces it |
| NotificationServiceSteps.NotificationService.DeleteMachine | libs/database/src/repositories/machine.repository.ts:329-346 | A deleted machine is no longer free |
| NotificationServiceSteps.NotificationService.StartUsingMachine | libs/database/src/repositories/using-machine.repository.ts:37-48 | A machine in use is no longer free |
| NotificationServiceSteps.NotificationService.AfterMachineRead | src/machine/machine.service.ts:666-691 | The room is announced unless the machine has been deleted meanwhile |
| NotificationServiceSteps.NotificationService.AfterPatchWrite | src/machine/machine.service.ts:400-430 | The patch is announced exactly when the machine it read was disabled and the written one is enabled |
| NotificationServiceSteps.NotificationService.AfterSubscribersRead | src/notification/notification.service.ts:162-169 | The snapshot is every row of the room; an empty one ends the run |
| NotificationServiceSteps.NotificationService.AfterCount | src/notification/notification.service.ts:171-177 | The run goes on to the pushes exactly when a machine is free |
| NotificationServiceSteps.NotificationService.AfterPushes | src/notification/notification.service.ts:186-191 | Any part of the snapshot may be reached; the rest is kept as refused |
| NotificationServiceSteps.NotificationService.AfterDeletion | src/notification/notification.service.ts:193-199 | Only the told rows of the snapshot are deleted |
| UsageLocks.InterleavingsAreLinearizable | libs/database/src/repositories/using-machine.repository.ts:23-261 | Every interleaving of lock, read, write, commit and abort steps with single-statement updates is a history of whole operations, each answered as if alone; so each machine has at most one open session and no session ends before it starts, from the locks and not from the unique index |
| UsageLocks.StepKeepsSysInv | libs/database/src/repositories/using-machine.repository.ts:28-49 | One statement of any transaction keeps lock ownership, what every other transaction relies on, and the linearization |
| UsageLocks.StatementSparesTx | libs/database/src/repositories/using-machine.repository.ts:83-112 | A single-statement update that gets past the row locks leaves valid everything a running transaction has read or written |
| UsageLocks.FoundAnswers | libs/database/src/repositories/using-machine.repository.ts:133-165 | A transaction that ends at its check answers what the whole operation would have answered then |
| UsageLocks.CommitAnswers | libs/database/src/repositories/using-machine.repository.ts:166-179 | A commit writes and answers what the whole operation, done at that instant, would |
| UsageLocks.ClosedRowsStayFrozen | libs/database/src/repositories/using-machine.repository.ts:23-315 | From any reached state on: rows are never lost, and closed rows and rows of deleted machines never change again |
| UsageLocks.ConfirmedOnceInEveryRun | libs/database/src/repositories/using-machine.repository.ts:115-188 | With any number of concurrent and retried confirmations each usage uuid is confirmed at most once; every later answer on the live machine is a rejection |
| UsageLocks.EveryRunRespectsOwners | libs/database/src/repositories/using-machine.repository.ts:83-178 | In every interleaved run, between any two neighbouring effects a row's user only changes at the user's own request, and only a confirmation at least 30 minutes on ends another user's session |
| UsageLocks.ConfirmedSessionIsReplaced | libs/database/src/repositories/using-machine.repository.ts:166-179 | In every run a confirmation answered with success left the previous row with its owner, closed with zero length, and the confirmer owning the machine's only open session |
| UsageLocks.AllowedConfirmationSucceeds | src/machine/machine.service.ts:554-566 | With no lock held, a confirmation that registration has asked for runs through its seven steps to success |
| UsageTable.ApplyKeepsOneOpen | libs/database/src/repositories/using-machine.repository.ts:37-48 | No operation gives a machine a second open session |
| UsageTable.ApplyKeepsPeriods | libs/database/src/repositories/using-machine.repository.ts:251-254 | No operation ends a session before its start |
| UsageTable.ApplyFreezes | libs/database/src/repositories/using-machine.repository.ts:83-112 | No operation loses a row, changes a closed row or one of a deleted machine, or moves a row's machine or start |
| UsageTable.ApplyRespectsOwners | libs/database/src/repositories/using-machine.repository.ts:286-302 | A row's user only goes from nobody to the registering user or to nobody at that user's own request; another user's session is only ended by a confirmation at least 30 minutes after its start |
| UsageTable.HistoryIsSafe | libs/database/src/repositories/using-machine.repository.ts:23-315 | Any history keeps one open session per machine, valid periods, all rows, and all closed rows as they are |
| UsageTable.HistoryRespectsOwners | libs/database/src/repositories/using-machine.repository.ts:83-178 | Between any two neighbouring states of a history owners are respected |
| UsageTable.ConfirmationTakesOver | libs/database/src/repositories/using-machine.repository.ts:152-179 | A successful confirmation closes the previous row with zero length, keeps its owner and start, and leaves exactly one open session, the confirmer's |
| UsageTable.ClosedIsNeverConfirmed | libs/database/src/repositories/using-machine.repository.ts:133-151 | A uuid whose session is closed is never confirmed again, and a live machine answers "not running" or "usage changed" |
| UsageTable.ConfirmedAtMostOnce | libs/database/src/repositories/using-machine.repository.ts:115-188 | In any history a usage uuid is confirmed at most once |
| UsageTable.WaitingFindsNoNewRow | libs/database/src/repositories/using-machine.repository.ts:87-98 | A single-statement update that found a row to wait for finds no other once the transaction it waited for has committed |
| UsageOutcomes.StartOutcome | libs/database/src/repositories/using-machine.repository.ts:23-49 | Starting adds one open session with the given owner, notification and start exactly when the machine is live and idle; otherwise it answers with an open session or not found, and changes nothing |
| UsageOutcomes.FinishOutcome | libs/database/src/repositories/using-machine.repository.ts:242-256 | Every open session of a live machine ends at the given time, every other row stays, and the answer is one of the rows as ended |
| UsageOutcomes.EnableOutcome | libs/database/src/repositories/using-machine.repository.ts:83-98 | The open sessions that are nobody's or the user's become the user's with notification; every other row stays |
| UsageOutcomes.DisableOutcome | libs/database/src/repositories/using-machine.repository.ts:191-206 | The user's own open sessions lose their notification and nothing else; every other row stays |
| UsageOutcomes.UnlinkOutcome | libs/database/src/repositories/using-machine.repository.ts:286-302 | The user's own open sessions become nobody's, without notification; every other row stays |
| UsageOutcomes.OwnUpdateAnswer | libs/database/src/repositories/using-machine.repository.ts:83-112 | Such an update answers 1 exactly when the machine is live and its open session is the user's to change, and 0 otherwise |
| UsageOutcomes.ConfirmOutcome | libs/database/src/repositories/using-machine.repository.ts:115-180 | Each refusal in its own case, with nothing changed: gone, idle, another session, nobody's or the user's own, or less than 1,800,000 ms old; otherwise the old session ends at its start and the user's starts now |
| UsageOutcomes.MachineOutcome | libs/database/src/repositories/machine.repository.ts:329-346 | Deleting and adding a machine touch that machine and no session |
| UsageOutcomes.RegisterOutcome | src/machine/machine.service.ts:531-575 | Each answer of a registration by the machine's open session: registered, confirmation required from 1,800,000 ms on, or taken by another user |
| UsageTransactions.UncontendedStart | libs/database/src/repositories/using-machine.repository.ts:28-49 | A start that finds no session inserts its row with the given owner and commits it |
| UsageTransactions.RepeatedStart | libs/database/src/repositories/using-machine.repository.ts:37-40 | A start that finds an open session answers with it and writes nothing |
| UsageTransactions.UncontendedFinish | libs/database/src/repositories/using-machine.repository.ts:243-256 | A finish that meets no row lock ends the machine's open sessions at its stamp |
| UsageTransactions.TakesLock | libs/database/src/repositories/using-machine.repository.ts:31-35 | A transaction takes its machine's lock, or waits while another holds it |
| UsageTransactions.NoMachine | libs/database/src/repositories/using-machine.repository.ts:36-36 | Without a live machine the transaction ends with its answer and no write |
| UsageTransactions.StatementOutcome | libs/database/src/repositories/using-machine.repository.ts:87-98 | A single-statement update takes effect at once, or waits while a row it wants is locked |
| UsageTransactions.RowLocksOutcome | libs/database/src/repositories/using-machine.repository.ts:128-132 | Locking or ending the machine's open sessions waits while another transaction holds one of them |
| UsageTransactions.AbortOutcome | libs/database/src/repositories/using-machine.repository.ts:50-60 | An aborted transaction leaves tables and history and holds nothing any more |
| UsageTable.RegistrationAgreesWithConfirmation | src/machine/machine.service.ts:531-575 | Registration answers "confirmation required, usage u" exactly when confirming u at that instant would succeed, and the two never both succeed |
| UsageTable.ConfirmationStaysActionable | src/machine/machine.service.ts:554-566 | That answer stays actionable at all later times while the machine lives and its session row is untouched |
| UsingMachineRepository.UsingMachines.FindOpen | libs/database/src/repositories/using-machine.repository.ts:37-39 | Finds an open session of the machine exactly when there is one |
| UsingMachineRepository.UsingMachines.CreateUsingMachine | libs/database/src/repositories/using-machine.repository.ts:23-49 | Table and answer are those of the whole start operation: a repeated start returns the existing session |
| UsingMachineRepository.UsingMachines.ConfirmCompletedAndRegister | libs/database/src/repositories/using-machine.repository.ts:115-180 | Table and answer are those of the whole confirmation, with each rejection in its own case |
| UsingMachineRepository.UsingMachines.UpdateMany | libs/database/src/repositories/using-machine.repository.ts:87-98 | Exactly the open rows that match are rewritten; the count is their number |
| UsingMachineRepository.UsingMachines.FinishUsingMachine | libs/database/src/repositories/using-machine.repository.ts:242-256 | Table and answer are those of the whole finish operation |
| UsingMachineRepository.UsingMachines.UpdateOwnSession | libs/database/src/repositories/using-machine.repository.ts:286-302 | Registering, disabling and unlinking change exactly their matching row, at most one, and answer how many |
| UsingMachineRepository.AtMostOneMatches | libs/database/src/repositories/using-machine.repository.ts:191-219 | With one open session per machine a conditional update matches at most one row |
| PowerPipeline.IdleIsDebounced | src/machine/machine.service.ts:112-178 | Whatever the order of arrivals, timers, handlers and queued updates, IDLE is written only after a low reading handled at least the delay before the guard ran, every reading handled from then to the guard being low or disturbed (its recording failed, or its MAC was untracked) |
| PowerPipeline.IdleMeansLowThroughout | src/machine/machine.service.ts:112-178 | If recordings succeed and the MAC stays tracked, every one of those readings was below 4 W |
| PowerPipeline.FailedRecordingBreaksDebounce | src/machine/machine.service.ts:120-133 | A concrete run in which one failed recording of a high reading lets IDLE through half a second later |
| PowerPipeline.ActiveFollowsHighReading | src/machine/machine.service.ts:135-151 | In every run a queued active update is the last one queued, its reading is at least 4 W, and that reading's handler is still awaiting it |
| PowerPipeline.ShowsOwnStatus | src/machine/machine.service.ts:141-144 | Over any run a washer is only ever shown IDLE or WASH and a dryer IDLE or DRY |
| PowerPipeline.IdleGuardIsDebounced | src/machine/machine.service.ts:196-216 | The guard of a queued IDLE update, evaluated when it runs, passes only in a debounced state |
| PowerPipeline.StepKeepsPipelineInv | src/machine/machine.service.ts:112-250 | Every stretch between awaits keeps the invariant that composes the bounded queue, the timer and the promise chain |
| PowerPipeline.CacheFollowsSession | src/machine/machine.service.ts:213-239 | A step makes cached status and session disagree exactly when a session operation commits and then fails |
| PowerPipeline.CacheAgreesWithSession | src/machine/machine.service.ts:196-240 | Over any run of operations that take effect or fail without effect, the cached status is IDLE exactly when no session is open |
| PowerPipeline.FailedUpdateIsRetried | src/machine/machine.service.ts:213-236 | After a failed update in any run, cache and session are as before and the cache stays so over every run without a later success; another update to the same status whose guard runs then reaches its write exactly if the latest power still asks for it, an active one always |
| PowerPipeline.HighReadingRetries | src/machine/machine.service.ts:120-151 | After a failed active update and any run without success, the next high reading that is taken up and recorded brings the update back to its write, past every IDLE update still queued |
| PowerPipeline.LowReadingRetries | src/machine/machine.service.ts:129-175 | After a failed IDLE update and any run without success, the next low reading that is taken up and recorded leaves a timer pending; if only low readings come until the delay has passed, it fires and IDLE is back at its write with the next guard |
| PowerPipeline.WindowIsLowExactly | src/machine/machine.service.ts:112-178 | In every run, for every IDLE write: all readings since the arming one were below 4 W exactly when none was both at least 4 W and disturbed |
| PowerPipeline.TrackedMacHasStatus | src/machine/machine.service.ts:210-223 | However MACs are forgotten and tracked again, no queued update finds its MAC tracked without a cached status |
| PowerOutcomes.WholeLowReading | src/machine/machine.service.ts:129-132 | A recorded low reading arms the idle timer for the delay unless one is pending, and does nothing else |
| PowerOutcomes.LowForAMinute | src/machine/machine.service.ts:41-43 | With the service's own delay a first low reading arms the timer for 60,000 ms later |
| PowerOutcomes.WholeHighReading | src/machine/machine.service.ts:133-151 | A recorded high reading clears the timer and queues WASH for a washer, DRY for a dryer, which its handler awaits |
| PowerOutcomes.WholeUntypedReading | src/machine/machine.service.ts:135-139 | Without a known type the database is asked; an answer queues its active status, none ends the handler |
| PowerOutcomes.WholeMissedReading | src/machine/machine.service.ts:120-127 | A reading that is not recorded, or of an untracked MAC, changes the latest power and nothing else |
| PowerOutcomes.GuardOutcome | src/machine/machine.service.ts:205-211 | An update goes on to write the row exactly when its MAC is tracked, the latest power asks for its status at 4 W, and the cache does not show it |
| PowerOutcomes.WholeUpdate | src/machine/machine.service.ts:213-239 | Going idle closes the session and leaving idle opens it, and then the cache shows the status |
| PowerOutcomes.ActiveToActive | src/machine/machine.service.ts:225-239 | From one active status to another the session stays and the cache follows |
| PowerOutcomes.FirstStatus | src/machine/machine.service.ts:220-223 | A tracked MAC without a cached status only has it cached |
| PowerOutcomes.FailedUpdate | src/machine/machine.service.ts:218-238 | A failed write or session change, or a MAC forgotten meanwhile, leaves the cache; a change that committed has moved the session |
| PowerOutcomes.TimerOutcome | src/machine/machine.service.ts:162-176 | A due timer goes and queues IDLE; one that is not due does nothing |
| PowerOutcomes.TrackingOutcome | src/machine/machine.service.ts:188-194 | Forgetting drops timer, power, type and status but neither chain nor session; tracking sets type and status |
| PowerOutcomes.MachineStarts | src/machine/machine.service.ts:112-250 | From rest and idle a high reading ends with the machine shown active, a session open, and rest again |
| MachinePowerService.MachinePower.constructor | src/machine/machine.service.ts:51-62 | Nothing is tracked or queued and every MAC's invariant holds |
| MachinePowerService.MachinePower.Resume | src/machine/machine.service.ts:112-250 | Whatever event resumes a suspended call of one MAC, that MAC takes exactly its step, every other MAC is unchanged, and every MAC's invariant survives |
| MachinePowerService.MachinePower.Elapse | src/machine/machine.service.ts:162-176 | Time passes for every MAC and keeps every invariant |
| MachinePowerService.MachinePower.TrackMacAddress | src/machine/machine.service.ts:736-738 | The MAC is tracked with a type and a status |
| MachinePowerService.MachinePower.Arrives | libs/matter-client/src/matter-connection.service.ts:303-314 | One MAC takes exactly the delivery step, every other MAC is unchanged |
| MachinePowerService.MachinePower.BeginHandling | src/machine/machine.service.ts:116-118 | The latest power is the reading's before its recording is awaited |
| MachinePowerService.MachinePower.AfterRecording | src/machine/machine.service.ts:126-139 | After the recording: a low reading arms the timer, a high one clears it; no other MAC changes |
| MachinePowerService.MachinePower.AfterTypeLookup | src/machine/machine.service.ts:135-151 | After the type lookup: the active update is queued and awaited, or the handler ends |
| MachinePowerService.MachinePower.ScheduleIdleAfterLowPower | src/machine/machine.service.ts:159-178 | A timer is armed only when none is pending |
| MachinePowerService.MachinePower.ClearPowerBelowThresholdTimer | src/machine/machine.service.ts:180-186 | The pending timer, if any, is gone |
| MachinePowerService.MachinePower.TimerCallback | src/machine/machine.service.ts:162-175 | The fired timer is removed and an IDLE update queued |
| MachinePowerService.MachinePower.EnqueueMachineStatusUpdate | src/machine/machine.service.ts:201-203 | The update joins the end of its MAC's chain |
| MachinePowerService.MachinePower.BeginUpdate | src/machine/machine.service.ts:206-216 | Tracking, guard and cache are judged when the update runs, not when it was queued |
| MachinePowerService.MachinePower.AfterStatusWritten | src/machine/machine.service.ts:213-230 | After the status write: the session follows, or the cache, or nothing |
| MachinePowerService.MachinePower.AfterSessionChanged | src/machine/machine.service.ts:225-239 | The cache follows only a session operation that returned normally |
| MachinePowerService.MachinePower.SettleUpdate | src/machine/machine.service.ts:242-248 | The chain's head is gone, its entry too if it was the last, and a handler awaiting it ends |
| MachinePowerService.MachinePower.ForgetMacAddress | src/machine/machine.service.ts:188-194 | Timer, type, uuid, status and latest power of the MAC are gone; its queue is not |
| BoundedQueue.DeliversSerially | libs/matter-client/src/matter-connection.service.ts:36-100 | In every run projected values are a prefix of the accepted ones, at most one is in flight, at most maxQueued wait, and accepted and dropped values partition the offered ones in order |
| BoundedQueue.DropsExactlyWhenFull | libs/matter-client/src/matter-connection.service.ts:73-82 | A value is dropped exactly when the queue is full, which for maxQueued of at least 1 means a projection is outstanding |
| BoundedQueue.CompletesExactlyWhenDrained | libs/matter-client/src/matter-connection.service.ts:48-54 | After the source has completed, completion is signalled exactly when every accepted value has been projected, and at most one terminal signal is sent |
| BoundedQueue.StepKeepsInv | libs/matter-client/src/matter-connection.service.ts:43-98 | Every callback keeps delivery order, serial projection and single termination |
| BoundedQueue.OffersArePartitioned | libs/matter-client/src/matter-connection.service.ts:74-81 | Accepted and dropped values are subsequences of the offered ones and together make them up |
| BoundedQueue.FailureOutcome | libs/matter-client/src/matter-connection.service.ts:62-98 | A failing source or projection ends a live stream with one error and an empty queue, an unsubscribed one ends silently, and a finished source changes nothing |
| BoundedConcatMapOperator.BoundedConcatMap.FinishWhenIdle | libs/matter-client/src/matter-connection.service.ts:48-54 | Completes exactly when the source has completed and nothing waits or runs |
| BoundedConcatMapOperator.BoundedConcatMap.ContinuePump | libs/matter-client/src/matter-connection.service.ts:59-70 | The next waiting value goes to the projection, or the pump ends |
| BoundedConcatMapOperator.BoundedConcatMap.StartPump | libs/matter-client/src/matter-connection.service.ts:56-58 | A second pump never starts |
| BoundedConcatMapOperator.BoundedConcatMap.Next | libs/matter-client/src/matter-connection.service.ts:74-82 | Overflow is reported exactly when the queue is full; otherwise the value is queued |
| BoundedConcatMapOperator.BoundedConcatMap.ProjectResolved | libs/matter-client/src/matter-connection.service.ts:61-71 | The pump moves on by one value |
| BoundedConcatMapOperator.BoundedConcatMap.ProjectRejected | libs/matter-client/src/matter-connection.service.ts:63-67 | The stream errors once and nothing is projected any more |
| BoundedConcatMapOperator.BoundedConcatMap.Complete | libs/matter-client/src/matter-connection.service.ts:88-91 | A completed source finishes the stream once it is drained |
| BoundedConcatMapOperator.BoundedConcatMap.Error | libs/matter-client/src/matter-connection.service.ts:83-87 | A source error ends the stream at once |
| BoundedConcatMapOperator.BoundedConcatMap.Teardown | libs/matter-client/src/matter-connection.service.ts:94-98 | Unsubscribing empties the queue and stops the pump |
| ListenerStream.DrainsExactly | libs/matter-client/src/matter-connection.service.ts:228-278 | drained resolves at most once, and exactly when the listener has been removed and every accepted update of every MAC has been projected |
| ListenerStream.SixteenMayWait | libs/matter-client/src/matter-connection.service.ts:239-256 | At most 16 updates of a MAC wait, and a live stream drops its next one exactly when 16 do |
| ListenerStream.GroupsAreIndependent | libs/matter-client/src/matter-connection.service.ts:236-258 | A MAC's queue is always what its own events alone would have made it |
| ListenerStream.RunMirrors | libs/matter-client/src/matter-connection.service.ts:236-258 | In every run a group equals a stand-alone operator fed with that MAC's events |
| ListenerStream.StepKeepsStreamInv | libs/matter-client/src/matter-connection.service.ts:260-266 | Every event keeps the count of drain signals right |
| ListenerStream.PowerListenerStream.Enqueue | libs/matter-client/src/matter-connection.service.ts:309-312 | Only the update's own group changes |
| ListenerStream.PowerListenerStream.CallbackSettled | libs/matter-client/src/matter-connection.service.ts:240-249 | The group moves on; drained resolves if it was the last to complete |
| ListenerStream.PowerListenerStream.RemoveListener | libs/matter-client/src/matter-connection.service.ts:271-278 | Every group's source completes; drained resolves at once if nothing is left |
| Connectivity.StateRefinesHistory | src/machine/machine-connectivity.service.ts:101-121 | After any observations on a clock that does not go back: offline exactly when the run of unavailable observations since the last available one spans 60 s, online if otherwise ever available, null until decided; failed site queries count for nothing |
| Connectivity.AlertsCountLongOutages | src/machine/machine-connectivity.service.ts:108-146 | The number of offline alerts equals the number of maximal outages spanning at least 60 s |
| Connectivity.AlertsAreSeparated | src/machine/machine-connectivity.service.ts:122-138 | Two alerts always have an available observation between them |
| Connectivity.OutageStartMeaning | src/machine/machine-connectivity.service.ts:118-118 | The remembered start is the first observation of the outage that is still going on |
| Connectivity.LastAvailableExists | src/machine/machine-connectivity.service.ts:113-116 | A machine that was ever available was so at exactly one last time |
| MachineConnectivity.TurnIsShown | src/machine/machine-connectivity.service.ts:101-121 | A committed turn of a machine whose plug is among its site's answers makes it online and last seen now; any other turn never makes it online, keeps its last seen time, and makes it offline from 60,000 ms on |
| MachineConnectivity.FateIsTaken | src/machine/machine-connectivity.service.ts:91-146 | From the answers alone: when the refresh ends, what the machine's state becomes, when it is forgotten, and when an alert is sent |
| MachineConnectivity.MachineConnectivityService.Get | src/machine/machine-connectivity.service.ts:54-67 | Answers offline, online, null and last seen as functions of the committed history; null for machines that are not monitored |
| MachineConnectivity.MachineConnectivityService.NextState | src/machine/machine-connectivity.service.ts:101-121 | The incremental update of one observation |
| MachineConnectivity.MachineConnectivityService.Commit | src/machine/machine-connectivity.service.ts:133-146 | State and alert count stay those of the history, and a notification that throws is counted as a failure and changes nothing else |
| MachineConnectivity.MachineConnectivityService.RefreshSilentSite | src/machine/machine-connectivity.service.ts:99-100 | A site without an answer changes no machine's state |
| MachineConnectivity.MachineConnectivityService.RefreshMachine | src/machine/machine-connectivity.service.ts:91-146 | From what the site answered: the machine is online and last seen now, or never turned online; a transition whose re-read finds it gone forgets it, one whose re-read throws or finds the service stopped ends the refresh with every state as it was |
| MachineConnectivity.MachineConnectivityService.RefreshReachableSite | src/machine/machine-connectivity.service.ts:108-146 | A transition is committed only after the re-read found the machine and the service is not stopped |
| MachineConnectivity.MachineConnectivityService.DropUnmonitored | src/machine/machine-connectivity.service.ts:148-150 | Exactly the machines no longer monitored are forgotten |
| MachineConnectivity.MachineConnectivityService.Refresh | src/machine/machine-connectivity.service.ts:84-151 | Every machine reached has the state and alerts that its site's answer calls for, the rest are as they were, and after a full pass only monitored machines are known |
| MachineIndex.IndexAgreesWithTable | src/machine/machine.service.ts:73-83 | After any create, map, unmap, commission, delete, status update or restart: an active machine has a MAC exactly when the index tracks that MAC under its uuid, a tracked MAC has its machine's type and some status cached, an untracked one has neither, and no ThinQ-mapped machine has a MAC |
| MachineIndex.ApplyKeepsIndex | src/machine/machine.service.ts:388-418 | Each operation, accepted or refused, keeps table and index in agreement |
| MachineIndex.RestartKeeps | src/machine/machine.service.ts:73-83 | A restart rebuilds an agreeing index from the table in whatever order the machines are read |
| MachineIndex.RestartNeverFails | src/machine/machine.service.ts:85-94 | No operations leave a commissioned machine without a MAC, so the start-up check never throws |
| MachineIndex.PatchedRowOk | libs/database/src/repositories/machine.repository.ts:286-309 | A patch never leaves a mapped machine with a MAC or a commissioned one without, and never changes the status of a machine that keeps its MAC |
| MachineIndex.AgreementBreaksExactly | src/machine/machine.service.ts:210-240 | When cached statuses are the rows', an operation parts them exactly when it is a status update of an active machine's MAC to a different status that has to change the session and whose session change fails |
| MachineIndex.CachedStatusIsTheRows | src/machine/machine.service.ts:210-240 | After any operations a machine's cached status differs from its row's exactly while its MAC's last status write is not followed by a cache write |
| MachineIndex.FailedFinishLeavesRowIdle | src/machine/machine.service.ts:210-236 | After going idle with a failed session close the row reads IDLE while cache and session do not, and every update to the cached status is skipped from then on |
| MachineOutcomes.UnreportedMachinesAreIdle | libs/database/src/repositories/machine.repository.ts:299-308 | After any operations a machine with neither MAC nor device reads IDLE, and no two active machines share a device, or a slot and a type |
| MachineOutcomes.CreateOutcome | libs/database/src/repositories/machine.repository.ts:95-119 | A machine is created exactly when slot and device are free and only a dryer has a device; it is available, idle, without a MAC and not commissioned |
| MachineOutcomes.PatchOutcome | libs/database/src/repositories/machine.repository.ts:258-309 | An accepted patch sets availability, payload and device as asked; mapping takes MAC, commission and index entry away, leaving a device makes the machine idle and closes its session |
| MachineOutcomes.RefusedPatch | src/machine/machine.service.ts:395-407 | A refused patch, or one whose session close does not return, leaves table and index |
| MachineOutcomes.CommissionOutcome | src/machine/machine.service.ts:711-739 | Exactly an active, uncommissioned machine with a payload that is no mapped dryer gets a MAC no other has, and is tracked |
| MachineOutcomes.StartRefused | src/machine/machine.service.ts:85-94 | A start is refused exactly for a commissioned machine without a MAC that is no mapped dryer |
| MachineOutcomes.PowerOutcome | src/machine/machine.service.ts:205-240 | Row, session and cache after an update of a tracked MAC, by cached status and outcome |
| MachineOutcomes.ThinqOutcome | libs/database/src/repositories/machine.repository.ts:415-432 | A ThinQ state reaches exactly the status of an active dryer mapped to the device |
| MachineOutcomes.DeleteOutcome | libs/database/src/repositories/machine.repository.ts:329-346 | Deleting marks the row and keeps the rest, the index and the session |
| MachineServiceIndex.MachineIndexService.OnModuleInit | src/machine/machine.service.ts:73-94 | Indexes the listed machines one by one; it starts exactly when every commissioned machine has a MAC or is a ThinQ dryer, and from a sound table always, with table and index in agreement |
| MachineServiceIndex.MachineIndexService.CreateMachine | libs/database/src/repositories/machine.repository.ts:95-119 | Creates exactly when type, slot and device allow it |
| MachineServiceIndex.MachineIndexService.WriteRow | libs/database/src/repositories/machine.repository.ts:258-309 | The repository's checks decide, and the written row is the patched one |
| MachineServiceIndex.MachineIndexService.UpdateMachine | src/machine/machine.service.ts:388-418 | Session, row and index after a patch, including one whose session close fails before or after committing |
| MachineServiceIndex.MachineIndexService.CommissionMachine | src/machine/machine.service.ts:711-739 | Commissions exactly an undeleted, unmapped, uncommissioned machine with a payload whose MAC is free, and tracks it |
| MachineServiceIndex.MachineIndexService.DeleteMachine | libs/database/src/repositories/machine.repository.ts:329-346 | Marks the row deleted; the index is left as it is |
| MachineServiceIndex.MachineIndexService.ForgetMacAddress | src/machine/machine.service.ts:188-194 | The MAC is in none of the three index maps any more, all others are kept |
| MachineServiceIndex.MachineIndexService.UpdateThinqStatus | libs/database/src/repositories/machine.repository.ts:415-432 | Writes the status exactly to an active dryer mapped to the device; no cached status is touched |
| MachineServiceIndex.MachineIndexService.StartUsingMachine | libs/database/src/repositories/using-machine.repository.ts:37-48 | The machine has an open session |
| MachineServiceIndex.MachineIndexService.UpdateStatus | src/machine/machine.service.ts:205-240 | Row, session and cache after one queued update |
| CommissionRaces.TrackingIsKept | src/machine/machine.service.ts:409-418 | Statement by statement, a step keeps every active machine with a MAC tracked, or about to be, exactly when it is not an overtaking: a late commission tracking, or a late patch forgetting, a MAC that an active machine carries by then |
| CommissionRaces.ActiveMachinesAreTracked | src/machine/machine.service.ts:711-739 | Over any interleaving without an overtaking, an active machine with a MAC is tracked under its own uuid once its commission is over |
| CommissionRaces.LateForgetUntracks | src/machine/machine.service.ts:409-414 | A concrete run without failures in which a mapping patch forgets a MAC that another machine has just been commissioned with |
| CommissionRaces.EntriesAreKept | src/machine/machine.service.ts:409-414 | Statement by statement, a step keeps every tracked MAC in the row it is tracked under, or about to be forgotten, exactly when it strands none: a late commission tracking a MAC its machine has lost, a patch taking a tracked MAC it had not read, or a second commission replacing one |
| CommissionRaces.IndexAgreesWhenQuiet | src/machine/machine.service.ts:388-418 | Over any interleaving of commissions, mapping and unmapping patches and deletions without an overtaking or a stranding, once nothing is between its two writes an active machine carries a MAC exactly when the MAC is tracked under it, and every tracked MAC is in its row |
| CommissionRaces.MappedMachineStaysTracked | src/machine/machine.service.ts:389-414 | A concrete run without failures or overtaking that leaves a ThinQ-mapped machine tracked, because the patch read it before its commission |
| CommissionRaces.WholeCommission | src/machine/machine.service.ts:711-739 | An undisturbed commission gives an unmapped machine without a MAC the one found and tracks it, unless another active machine has it |
| CommissionRaces.WholePatches | src/machine/machine.service.ts:400-418 | An undisturbed mapping patch takes the MAC from row and index |
| CommissionRaces.WholeUnmapping | libs/database/src/repositories/machine.repository.ts:286-309 | An undisturbed unmapping patch takes only the mapping off, and deleting only marks the row |
| CommissionRaces.FailedOperations | src/machine/machine.service.ts:728-735 | What fails, or finds its machine deleted, changes neither rows nor index |
| ThinqPushes.CacheIsSnapshotThenReports | src/thinq/thinq-mqtt.service.ts:87-145 | In every interleaving of pushes to many devices, with failures and snapshots: each cached state is the last snapshot followed by the fold, in arrival order, of the reports whose lookup found a machine, and at most one push per device is under way |
| ThinqPushes.ChainEntryGoesLast | src/thinq/thinq-mqtt.service.ts:111-122 | A device's chain entry is gone once all its pushes are through, and never before they have settled |
| ThinqPushes.StepKeepsPushInv | src/thinq/thinq-mqtt.service.ts:96-145 | Every stretch between awaits keeps chain order, chain entries and cached states right |
| ThinqPushes.PredecessorsAreDone | src/thinq/thinq-mqtt.service.ts:112-114 | A push begins only after every earlier push of its device has settled, successfully or not |
| ThinqPushes.WholePush | src/thinq/thinq-mqtt.service.ts:96-145 | An undisturbed push merges its report into the cached state if its lookup found a machine, otherwise leaves it, and its chain entry is gone again |
| ThinqPushes.WaitingPush | src/thinq/thinq-mqtt.service.ts:111-115 | A push behind another becomes the chain's entry and waits until that one has settled |
| ThinqPushes.SnapshotOutcome | src/thinq/thinq-mqtt.service.ts:88-93 | A snapshot replaces one device's cached state and touches no other |
| ThinqMerge.OverrideIsRightBiased | src/thinq/thinq-state-merge.ts:14-24 | Merging takes each field from the report if it is there and from the previous state otherwise; the empty report is an identity on both sides |
| ThinqMerge.OverrideAssociative | src/thinq/thinq-state-merge.ts:7-25 | Merging is associative |
| ThinqMerge.FoldKeepsLastMention | src/thinq/thinq-state-merge.ts:3-6 | Folding any list of reports gives each field its last reported value |
| ThinqMerge.FoldFactors | src/thinq/thinq-state-merge.ts:7-25 | Folding from a state is merging that state with the fold of the reports alone |
| ThinqMerge.CompactionIsHarmless | src/thinq/thinq-state-merge.ts:3-6 | Reports may be compacted in any grouping |
| ThinqMerge.MergeTakesContent | src/thinq/thinq-state-merge.ts:11-23 | A malformed report changes nothing and a malformed part of one counts as absent |
| ThinqMerge.ArrayItemsKept | src/thinq/thinq-state-merge.ts:18-23 | An array in place of a part contributes each item under its own index |
| ThinqLifecycle.StateOutcome | src/machine/machine.service.ts:438-503 | By name: RUNNING, DETECTING, COOLING and PAUSE show DRY with a session open, END, POWER_OFF, SLEEP, INITIAL and WRINKLE_CARE show IDLE with none, any other state leaves both, and a new ERROR alerts a registered user |
| ThinqLifecycle.UserOutcome | libs/database/src/repositories/using-machine.repository.ts:83-98 | Registering takes a session that is nobody's, unlinking gives up only one's own |
| ThinqLifecycle.SessionFollowsStates | src/machine/machine.service.ts:433-521 | For any list of states applied serially: a session is open, and DRY shown, exactly when the last significant state is an occupied one; sessions created and finished are the rises and falls; error alerts are the entries into ERROR while a registered session is open |
| ThinqLifecycle.MinutesAreExact | src/machine/machine.service.ts:459-475 | The stored minutes are exactly a well-formed reported time that fits the column, and none while detecting |
| ThinqRemapping.SessionsStayUnderMapping | src/machine/machine.service.ts:495-499 | A step takes an open session out from under its machine's mapping exactly when it starts a session on a machine no longer mapped to the device, or writes another mapping while a session is open |
| ThinqRemapping.RunsStayUnderMapping | src/machine/machine.service.ts:388-407 | Throughout a run sessions are open only under the mapped device exactly when no step is one of those two |
| ThinqRemapping.SessionsStayOwned | src/machine/machine.service.ts:395-407 | The same for the stronger guarantee that also no patch under way will take the machine away: a step keeps it exactly when no session starts past a patch that has closed it, and no patch takes a machine in use away that saw no mapping to change |
| ThinqRemapping.UnmappedMeansClosed | src/machine/machine.service.ts:388-407 | Over any run without a slip an unmapped machine has no open session |
| ThinqRemapping.UnmapCanReopenUsage | src/machine/machine.service.ts:495-499 | A concrete run without failures in which an unmap between re-check and start leaves an unmapped machine with an open session |
| ThinqRemapping.WholeCall | src/machine/machine.service.ts:476-503 | An undisturbed state of the mapped device opens a session if it is an occupied one and closes it if not; one of another device does nothing |
| ThinqRemapping.WholePatch | src/machine/machine.service.ts:388-407 | An undisturbed patch closes the session exactly when the mapping changes, and then writes it |
| ThinqRemapping.RecheckStopsLateCalls | src/machine/machine.service.ts:495-499 | A call whose machine has left the device by its re-check starts nothing |
| ThinqRemapping.ClosedPatchIsLeaving | src/machine/machine.service.ts:395-407 | After closing the session a patch is about to take the machine away |
| ThinqBackoff.UnauthorizedBlocks | src/thinq/thinq.service.ts:207-209 | After a refused authorization every call is refused unsent for exactly 900,000 ms |
| ThinqBackoff.OtherAnswers | src/thinq/thinq.service.ts:174-199 | A call before the promised time teaches nothing, a success takes the backoff back to 60,000 ms, any other failure changes nothing |
| ThinqBackoff.LostConnectionOutcome | src/thinq/thinq-mqtt.service.ts:263-274 | A lost connection sets a timer for the next delay unless one is pending or the service is stopped |
| ThinqBackoff.SuccessStartsOver | src/thinq/thinq-mqtt.service.ts:206-214 | After a success the next delay is 5,000 ms again |
| ThinqBackoff.TimersEnd | src/thinq/thinq-mqtt.service.ts:68-70 | A fired timer leaves room for the next; stopping leaves none pending and lets none be set |
| ThinqBackoff.RateLimitBlocksExactly | src/thinq/thinq.service.ts:174-206 | The k-th 429 since the last success blocks requests for exactly min(60 s * 2^(k-1), 900 s): earlier calls are refused unsent, later ones are sent |
| ThinqBackoff.BackoffClosedForm | src/thinq/thinq.service.ts:197-206 | After any calls the stored backoff is the capped power of two of the 429s since the last success |
| ThinqBackoff.ReconnectsBackOff | src/thinq/thinq-mqtt.service.ts:263-274 | Never two reconnect timers pend, and the n-th reconnect since the last success waits min(5 s * 2^(n-1), 300 s) |
| ThinqBackoff.RequestLimiter.Request | src/thinq/thinq.service.ts:166-209 | Sends exactly when not backing off, and both fields follow the answer |
| ThinqIngestion.ThinqDryer.UpdateThinqDryerState | src/machine/machine.service.ts:433-503 | A state of the mapped device has the full effect of one state, a state of any other device has none |
| ThinqIngestion.ThinqDryer.RegisterUser | libs/database/src/repositories/using-machine.repository.ts:83-98 | The open session is the user's if it was nobody's or the user's |
| ThinqIngestion.ThinqDryer.UnlinkUser | libs/database/src/repositories/using-machine.repository.ts:286-302 | The user's own open session is nobody's |
| ThinqIngestion.ThinqDryer.IsOccupied | src/machine/machine.service.ts:445-458 | Session and status say whether the last significant state was an occupied one |
| ThinqIngestion.ThinqDryer.NotifyThinqDryerError | src/machine/machine.service.ts:505-521 | Alerts only a registered open session |
| ThinqIngestion.ThinqMqttService.RememberDeviceState | src/thinq/thinq-mqtt.service.ts:88-93 | The cached state becomes the snapshot |
| ThinqIngestion.ThinqMqttService.HandlePushPayload | src/thinq/thinq-mqtt.service.ts:96-115 | A usable report of a named device joins that device's chain, anything else changes nothing |
| ThinqIngestion.ThinqMqttService.BeginPush | src/thinq/thinq-mqtt.service.ts:112-129 | A push starts only when its predecessor has settled |
| ThinqIngestion.ThinqMqttService.AfterLookup | src/thinq/thinq-mqtt.service.ts:130-139 | A push that found its machine merges into the cached state as it is then; any other settles |
| ThinqIngestion.ThinqMqttService.AfterUpdate | src/thinq/thinq-mqtt.service.ts:140-144 | The push settles whether the update returned or threw |
| ThinqIngestion.ThinqMqttService.Finally | src/thinq/thinq-mqtt.service.ts:116-122 | The chain entry goes only if it is still this push's |
| ThinqIngestion.ThinqMqttService.ScheduleReconnect | src/thinq/thinq-mqtt.service.ts:263-274 | No second timer is set while one is pending or the service is stopped |
| ThinqIngestion.ThinqMqttService.ReconnectTimerFires | src/thinq/thinq-mqtt.service.ts:270-273 | The timer field is cleared, so the next loss may schedule again |
| ThinqIngestion.ThinqMqttService.OnSubscribed | src/thinq/thinq-mqtt.service.ts:206-214 | A subscribed connection resets the attempt count |
| ThinqIngestion.ThinqMqttService.OnModuleDestroy | src/thinq/thinq-mqtt.service.ts:68-70 | The pending timer is cleared and none is set again |

## Left out

- MachineIndex.IndexAgreesWithTable: operations run whole; their interleaving is in `CommissionRaces`, for uuids only.
- Deleting or commissioning a machine while a status update for its MAC is under way is modelled as forgetting and tracking only.
- Admin patches overwriting the cached status while a power update runs.
- Bulk creation of machines, links, short codes and positions: rows that the index does not depend on.
- MachineServiceIndex.MachineIndexService.ForgetMacAddress: the idle timer and latest power that it also clears are in `MachinePowerService.MachinePower.ForgetMacAddress`.
- Selection and deduplication of power changes before they are queued, and the initial updates of a new listener.
- ThinqIngestion.ThinqMqttService.RememberDeviceState: a snapshot's parts are objects or absent; a string or an array there would be spread into its characters or items.
- Eviction of cached ThinQ states when devices are unmapped, and the polling service that takes snapshots.
- ThinqBackoff.RequestLimiter.Request: requests are made one at a time; overlapping ones share the two fields without order.
- ThinqIngestion.ThinqDryer.UpdateThinqDryerState: runs whole; its interleaving with remapping is in `ThinqRemapping`, where failures of the start and the finish are events.
- ThinqRemapping.SessionsStayUnderMapping: covers mapping and session only; the row's status is reset by the same write and is not followed there.
- LaundryRoom.WakeupIsNeverLost: a run one of whose own calls failed counts as covering its rows, because the code drops the announcement then; `LaundryRoom.NoWakeupIsLost` is the form without failing calls.
- NotificationServiceSteps.NotificationService.AfterUpsert: the refreshed creation time of an existing row is not kept.
- Usage rows removed with a user's account, and the machine rows that usage rows keep from being removed.
- The gender check before registering, message texts, and the re-registration, completion and error pushes beyond their number.
- MQTT connection set-up, certificates, event subscriptions, authentication, controllers, power history and health checks.
