# Verification of the Hub's durable core

This project models the state machines that the Agent Federation Hub keeps its promises with, and proves what they
guarantee together: the journal store, the observation protocol with its inbox and outbox workers, the workflow
orchestrator, the token bucket, artifact ingest and deletion across two stores, and the hash-chained audit file.
Everything is checked with `dafny verify dfyconfig.toml` (Dafny 4.11).

How the parts fit:

- **Journal store.** `Journal` gives the state, the records and how one record changes the state; `JournalOps` gives
  what each operation decides in a state, and `Run`, the effect of any sequence of operations, reopenings included.
  `JournalStore` is the mutable object: each of its methods checks, appends one record and applies it, and is proved
  to be one operation (a batch claim or purge: a run of operations) of `JournalOps`. So every theorem about runs is
  one about that object. `JournalRefinement`, `JournalLimits`, `EventLog`, `LeaseMachine`, `LeaseExclusion`,
  `OutboxMachine` and `QuotaConservation` are theorems over all runs; `LeaseCycle` and `StoreLaws` say what each
  operation comes to for its caller; `Ordering`, `BatchClaims` and `Selections` say what a batch takes, and `MapSum`
  adds up a map. `LineLimits` is what a reader with a bounded buffer accepts.
- **Observations.** `TaskChanges` has the changes that the service makes to a Task, `ArtifactMerge` what artifact
  updates amount to, `TaskHistory` what a Task says of its past over every run, `ObservationProtocol` (in
  `Observation.dfy`) the separately committed sub-steps of one observation, `FirstDelivery` what they make of the
  Task, `Redelivery` what fresh copies of its file parts can change. `InboxDelivery` and `OutboxDelivery` are worlds
  of store, workers and sink in which anything may happen in any order, with crashes; `InboxFate`, `InboxContent` and
  `SinkLimits` say which items can be applied, what their events say, and when the sink can be opened again.
  `InboxWorker` and `OutboxWorker` are the workers' loops, proved to be legal behaviour in those worlds; `InboxRound`
  and `OutboxRound` say what becomes of each item of a round, and `Backoff` when it is tried again. `EventFeed` is the
  loop that follows a Task's log.
- **Workflows.** `Definitions` normalises a definition, `WorkflowGraph` is the depth-first search. `WorkflowSteps` has
  the steps of an aggregate and why some step always moves, `ScheduleRuns` the scheduler as a machine of moves with
  what holds after every sequence of them, `StepHistory` what each step says of its past, `TaskStates` what Task
  states mean to a workflow, and `Scheduler` the coordinator, each of whose calls is proved to make such moves only.
  `Compensation` is the saga, `Templates` the template compiler.
- **Artifacts.** `ArtifactIngest` is the world of the two stores; `ArtifactServiceImpl` (in `ArtifactService.dfy`) and
  `ArtifactLifecycle` are the service and the worker in it, `LifecycleRound` what becomes of each object of a round;
  `ArtifactRaces` and `ArtifactRestart` say exactly where the guarantee ends.
- **Access.** `TokenBucket` and `AuditChain`.
- `Folds` and `Worlds` hold the two general ways of talking about runs: steps up to the first refusal, and
  reachability by legal steps.

Time is an integer counted from Go's zero time (seconds as reals in `TokenBucket`). Resource keys that the source
joins with NUL are pairs. Clocks, new IDs, provider answers, scan verdicts, failed writes and crashes are parameters
or steps of the environment.

## Model

| member | source | states |
|---|---|---|
| JournalRefinement.ReplayRestoresMemory | internal/core/store.go:457-580 | After any run of store operations, replaying the journal from empty gives the memory back, except for artifact storage keys and for revocations that had expired at the last prune |
| JournalRefinement.RevocationsSurviveReplay | internal/core/store.go:1361-1387 | From the last prune on, the replayed store answers every token revocation question as the running one does |
| JournalRefinement.BackupReplaysToItsMoment | internal/core/store.go:218-266 | A copy of the journal taken between two parts of any run stays a prefix of the later file and replays to the state at the copy |
| JournalRefinement.RestartKeepsObjectIffUnkeyed | internal/core/model.go:340-360 | A reopened store has every artifact object back, and has it back unchanged exactly if it had no storage key |
| JournalLimits.JournalOpensIffCommitsFit | internal/core/store.go:457-480 | A run leaves a journal that can be opened if and only if every line that one of its operations committed fits the 16 MiB buffer of the reader |
| JournalLimits.LongCommitBlocksReopening | internal/core/store.go:564-580 | The store commits a record of any length, and after one that is too long no later journal opens, whatever else runs |
| JournalStoreImpl.OpenJournal | internal/core/store.go:410-480 | Opening a file succeeds if and only if every line fits, and is then the Reopen operation on any store that left this file |
| JournalStoreImpl.JournalStore.ApplyRecord | internal/core/store.go:482-562 | The in-place update of the maps is one step of replay for every record kind |
| JournalStoreImpl.JournalStore.CreateTask | internal/core/store.go:624-650 | Creation in place is the store's CreateTask operation: first event numbered 1, key recorded, outbox item derived, one record committed |
| JournalStoreImpl.JournalStore.ApplyTaskVersion | internal/core/store.go:767-818 | The keyed, versioned change in place is the ApplyTask operation: not found, version conflict, duplicate key without effect, refused change, or one committed record |
| JournalStoreImpl.JournalStore.ClaimRecoverable | internal/core/store.go:852-901 | The batch claim takes the first claimable Tasks by descending priority and key, is the run of the claims one by one, and returns for each the lease it had coming when the batch began |
| JournalStoreImpl.JournalStore.ClaimInboxItems | internal/core/store.go:990-1028 | The same for inbox items |
| JournalStoreImpl.JournalStore.ClaimOutboxItems | internal/core/store.go:1108-1149 | The same for outbox items, ordered by creation and ID, never one that is acked, dead-lettered or purged |
| JournalStoreImpl.JournalStore.ClaimExpiredArtifacts | internal/core/store.go:1532-1579 | The same for expired artifacts, each of which moves to DELETING |
| JournalStoreImpl.JournalStore.PurgeOutboxItems | internal/core/store.go:1312-1340 | The purge is a run of single purges of distinct finished items that were created before the cutoff, and stops only at the limit or when none is left |
| JournalStoreImpl.JournalStore.Reserve | internal/core/store.go:1403-1441 | The reservation in place is the ReserveArtifact operation: quota check, identity conflict, replay of a live reservation, or a fresh PENDING object with its charge |
| StoreLaws.NoUpdateIsLost | internal/core/store.go:767-818 | Of all updates of one Task, workflow or worker control that expect the same revision at most one is ever committed, whatever runs in between |
| StoreLaws.KeyIsUsedOnce | internal/core/store.go:679-727 | Once a change of a Task or a workflow was committed under a key, nothing else under that key ever changes anything |
| StoreLaws.TaskIsChangedIff | internal/core/store.go:767-818 | A Task changes exactly if it exists, the condition holds, the key is new and the change succeeds, and is then what the change makes of it, one revision and one event further |
| StoreLaws.QueuedOncePerKey | internal/core/store.go:973-988 | After any run, an inbox item is queued exactly if no item of its Task has its key, so a push is queued once however often it comes |
| StoreLaws.TokenIsRevokedIff | internal/core/store.go:1346-1387 | A token is revoked exactly while the last revocation of it lasts, after every run, pruned and reopened or not |
| StoreLaws.ReservationFitsIff | internal/core/store.go:1403-1441 | After any run, a reservation that can be made is refused exactly if the sum of the tenant's charged objects and the new one would exceed the quota, and else leaves a PENDING, unscanned object with nothing stored |
| StoreLaws.PendingIsFailed | internal/core/store.go:1479-1512 | Failing a pending object records why and gives its bytes and its place back |
| StoreLaws.IncompleteReservationIsInvalid | internal/core/store.go:1389-1395 | A reservation is refused as invalid exactly if it lacks a name, tenant, Task, artifact, digest, size or expiry |
| StoreLaws.LiveReservationIsReplayed | internal/core/store.go:1397-1416 | Reserving an object that did not fail changes nothing, and is accepted exactly if it is the same object |
| StoreLaws.PruningIsExact | internal/core/store.go:1374-1387 | Pruning drops exactly the revocations that no longer make a token revoked |
| StoreLaws.OwnItemIsQueuedIff | internal/core/store.go:1088-1106 | An outbox item of one's own is queued exactly if it is complete and its Task has no item under its key |
| StoreLaws.EventIsTold | internal/core/store.go:961-971 | An event's outbox item has its ID, names, key, type, time and content |
| StoreLaws.ControlIsSetIff | internal/core/store.go:1703-1747 | A worker control is set, one revision further, exactly if its scope is not blank, its mode, trimmed and in upper case, is one of the three, and no other revision was expected |
| StoreLaws.AgentIsPut | internal/core/store.go:582-595 | An agent is filed under its own tenant and ID, and nothing else changes |
| StoreLaws.TaskIsCreatedIff | internal/core/store.go:624-650 | A Task is created exactly if there is none of its name, with revision 1 and one event, which is the draft given |
| StoreLaws.WorkflowIsCreatedIff | internal/core/store.go:652-677 | A workflow is created exactly if it is named, has steps and there is none of its name |
| StoreLaws.WorkflowIsChangedIff | internal/core/store.go:679-727 | A workflow changes exactly if it exists, the condition holds, the key is new and the change succeeds |
| Selections.WorkCandidatesAre | internal/core/store.go:862-871 | The candidates of a batch claim are the Tasks that were accepted by a provider and have not ended, whose lease has run out and is due |
| Selections.InboxCandidatesAre | internal/core/store.go:1000-1007 | The candidates are the items that are not acknowledged and whose lease is free |
| Selections.OutboxCandidatesAre | internal/core/store.go:1118-1126 | The candidates are the items that are not acked, dead-lettered or purged and whose lease is free |
| Selections.DeletionCandidatesAre | internal/core/store.go:1542-1554 | The candidates are the objects due for deletion whose lease is free |
| Selections.WorkGoesByPriority | internal/core/store.go:873-879 | Of two Tasks the one with the higher priority goes first, and of equals the one with the smaller key |
| Selections.ItemsGoByAge | internal/core/store.go:1127-1133 | Of two outbox items the older goes first, and of equally old ones the one with the smaller ID; inbox items go by ID and objects by key |
| Selections.LeasesAre | internal/core/store.go:884-899 | A lease that is handed out is for what is stored and names the claimant, the expiry and one attempt more than before |
| EventLog.LogsAgree | internal/core/store.go:624-650 | In every reachable state each log is numbered 1 to LastSequence = Revision, its distinct keys are the dedup set, the Task's state is the last one reported, and every event has its outbox item |
| EventLog.OneOutboxItemPerEvent | internal/core/store.go:961-971 | No two events of any Tasks share an outbox item |
| EventFeed.Feed.Follow | internal/hub/http.go:455-499 | The follow loop over a growing log has sent exactly the segment of the log from the cursor to the last read; it ends by itself at the first read after which the Task is terminal with nothing left to send, and only there |
| EventFeed.FollowingIsContiguous | internal/core/store.go:1661-1675 | What follows a cursor is numbered from just after it without gap or repetition, to the last sequence |
| EventFeed.ReconnectingIsSeamless | internal/hub/http.go:441-449 | A client that was cut off anywhere and comes back with the last sequence it received has in the end each event after its first cursor once, in order |
| EventFeed.ViewsOfARunAreSuccessive | internal/core/store.go:767-818 | Successive points of every run of the store are the growing, numbered logs that following and reconnecting need |
| LeaseExclusion.NoClaimWhileHeld | internal/core/store.go:852-951 | In every run and for all four lease tables: after a claim or renewal that nothing completed, no claim of the same resource succeeds before its expiry |
| LeaseExclusion.OnlyHolderRenews | internal/core/store.go:903-924 | After a claim or renewal that nothing completed, only its owner renews, and only before its expiry |
| LeaseExclusion.OnlyClaimantCompletes | internal/core/store.go:1052-1086 | A release, ack, retry, dead letter or deletion by a named owner succeeds only for the owner of the latest claim, with no completion in between |
| LeaseCycle.WorkIsClaimed | internal/core/store.go:852-901 | A claim takes effect exactly on a Task that can be claimed, which is then blocked exactly until the expiry; otherwise nothing changes |
| LeaseCycle.WorkIsRenewed | internal/core/store.go:903-924 | A renewal moves the expiry exactly for the holder and before it runs out; otherwise nothing changes |
| LeaseCycle.WorkIsReleased | internal/core/store.go:926-951 | The holder's release frees the Task, which can be claimed exactly from the time it named on, with its attempts kept or set back; nobody else's does anything |
| LeaseCycle.InboxIsClaimed | internal/core/store.go:990-1028 | The same of claims of inbox items |
| LeaseCycle.InboxIsRenewed | internal/core/store.go:1030-1050 | The same of renewals for inbox items, which an acknowledged one refuses |
| LeaseCycle.InboxIsAnswered | internal/core/store.go:1052-1086 | An acknowledgement by the holder is for good, a retry frees the item for exactly the time from its retry time on, and nobody else's answer does anything |
| LeaseCycle.OutboxIsClaimed | internal/core/store.go:1108-1149 | The same of claims of outbox items |
| LeaseCycle.OutboxIsRenewed | internal/core/store.go:1151-1171 | The same of renewals for outbox items |
| LeaseCycle.OutboxIsAcked | internal/core/store.go:1173-1190 | The holder's acknowledgement is recorded with its time and ends the lease, and no other item changes |
| LeaseCycle.OutboxIsDeadLettered | internal/core/store.go:1210-1228 | Giving an item up is recorded with its time and reason and ends the lease, and no other item changes |
| LeaseCycle.OutboxIsRetried | internal/core/store.go:1192-1208 | A retry frees the item, which can be claimed exactly from its retry time on, and keeps its attempts |
| LeaseCycle.OutboxAnswerNeedsLease | internal/core/store.go:1173-1228 | No answer by someone who does not hold the open item changes anything |
| LeaseCycle.DeadLetterIsReplayed | internal/core/store.go:1287-1310 | A dead letter of the tenant is open again from the replay on, with its attempts forgotten; nothing else is replayed |
| LeaseCycle.FinishedItemIsPurged | internal/core/store.go:1312-1340 | Exactly a finished item of the tenant from before the cutoff is purged, for good |
| LeaseCycle.DeletionIsClaimed | internal/core/store.go:1532-1579 | A claim takes effect exactly on an object that is due, which is then DELETING and blocked exactly until the expiry |
| LeaseCycle.DeletionIsRenewed | internal/core/store.go:1581-1602 | A renewal moves the expiry exactly for the holder and before it runs out |
| LeaseCycle.DeletionIsPutOff | internal/core/store.go:1638-1659 | The holder's retry of a deletion frees the object for exactly the time from its retry time on; nobody else's does anything |
| OutboxMachine.OutboxAlwaysConsistent | internal/core/store.go:1108-1258 | In every run with named lease owners a held item is open, ACKED and DEAD_LETTERED exclude each other, and PURGED follows one of them |
| OutboxMachine.PurgedIsAbsorbing | internal/core/store.go:1312-1340 | A purged item's state never changes again, whatever runs |
| OutboxMachine.AckKeepsExclusionIffNotDeadLettered | internal/core/store.go:1173-1190 | An accepted acknowledgement keeps the invariant exactly if the item is no dead letter, and is accepted for a dead letter only without an owner |
| OutboxMachine.UnnamedAckSpoilsDeadLetter | internal/core/store.go:1173-1190 | The failing state is reached: enqueue, claim, dead-letter, then an acknowledgement naming no owner |
| QuotaConservation.UsageIsTheSumOfChargedObjects | internal/core/store.go:1403-1512 | In every reachable state a tenant's bytes and objects are the sum and count over its PENDING, AVAILABLE, QUARANTINED and DELETING objects |
| QuotaConservation.UsageViolationUnreachable | internal/core/store.go:1479-1512 | The "usage invariant violated" error is unreachable for every operation after every run |
| QuotaConservation.UsageNeverExceedsQuota | internal/core/store.go:1403-1441 | Under one fixed quota, no run takes a tenant's usage above it |
| TaskChanges.StateMovesIff | internal/hub/service.go:833-865 | At every point of every run of the service, a Task's state moves if and only if the operation commits an observation that names a known, different state, is no older than the latest one seen, and meets no terminal state |
| TaskChanges.TasksMoveForward | internal/hub/service.go:833-865 | Over every run of the service: the remote Task ID is written once, a terminal state never changes, a cancellation request stays, observation time and counters never decrease |
| ArtifactMerge.IdsInFirstAppearanceOrder | internal/hub/service.go:943-963 | For any update sequence the artifact IDs stay distinct, in the order of their first appearance |
| ArtifactMerge.MergedIsFoldPerId | internal/hub/service.go:870-882 | Each artifact is what its own updates amount to: the parts since its last replacement or first update, whatever updates of other IDs came between |
| TaskHistory.TaskTellsItsPast | internal/hub/service.go:829-884 | Over every run of the service a Task tells its past: its artifacts are the committed updates merged in the order of its log, its problem, delivery state, remote Task, context and observation time are what the changes said of them, and the log has one event for each change, in order, which says what the change says |
| TaskHistory.TaskArtifactsAreFolds | internal/hub/service.go:943-963 | So each artifact of a Task in any run is what its own updates amount to, in order of first appearance |
| ObservationProtocol.Service.ApplyObservation | internal/hub/service.go:814-884 | The method externalises the file parts and then commits the status and each artifact update in order, up to the first that is refused: exactly the specified delivery |
| ObservationProtocol.SubStepKeysDistinct | internal/hub/service.go:818-872 | The keys of one observation's sub-steps never coincide, whatever the artifact IDs contain |
| ObservationProtocol.RedeliveryIsExactlyOnce | internal/hub/service.go:814-884 | After any number of deliveries cut off anywhere, with restarts and foreign work in between, one more ends with the Task, events and keys of one uninterrupted delivery, and is accepted or refused alike |
| ObservationProtocol.RedeliveryAfterAnyRun | internal/hub/service.go:814-884 | The same after every run of the service and for every Task there is |
| Redelivery.FreshRedeliveryIsExactlyOnce | internal/hub/service.go:823-831 | With the file parts moved anew at each delivery, failing or coming back different, one more delivery ends as a single one would have, with the same Task, events and keys but for the artifacts in them |
| Redelivery.MovesGiveAlikeSteps | internal/hub/service.go:886-924 | Two successful moves of one observation's file parts give sub-steps with the same keys and the same changes but for artifacts |
| ObservationProtocol.FirstDeliveryAddsOneEventEach | internal/hub/service.go:829-882 | A first delivery adds one event for each sub-step, in order, and their keys |
| FirstDelivery.FirstDeliveryUpdatesTask | internal/hub/service.go:833-882 | A first accepted delivery makes the Task take over what the observation says, and its artifacts the merge of the earlier updates and the observation's |
| FirstDelivery.EveryArtifactIsMoved | internal/hub/service.go:823-831 | The file parts of an observation can be moved exactly if those of each of its updates can, and each update then has its moved artifact and is else as it came |
| ObservationProtocol.CompletedDeliveryIsInert | internal/core/store.go:785-818 | Once an observation went through, delivering it again is accepted and changes neither memory nor file, whatever the service did in between |
| InboxDelivery.AckedItemsAreAppliedOnce | internal/worker/inbox.go:45-71 | Whatever overlapping workers, crashes and other callers do, every sub-step of an acknowledged item's observation is exactly one event of its Task's log |
| InboxContent.AppliedEventReportsSubStep | internal/hub/service.go:829-882 | That one event says what the sub-step says, its status, problem and artifact, in every world in which nobody commits anything else under its key |
| InboxFate.ItemIsAppliedIff | internal/hub/service.go:794-812 | On every healthy store, applying a queued item goes through if and only if it decodes, its file parts can be moved and it names no other remote Task than its Task has; otherwise nothing changes |
| InboxFate.ItemIsAppliedSometimeIff | internal/hub/service.go:794-812 | After any run of the service, some continuation applies the item if and only if it decodes, its parts can be moved, and it names a remote Task, which is its Task's if that has one |
| InboxFate.MismatchIsForever | internal/hub/service.go:794-812 | Every other item is refused at every redelivery, for good, and changes nothing |
| InboxFate.PushedItemMayGoThrough | internal/hub/service.go:760-812 | An accepted push becomes an item of its Task that carries the pushed observation and can be applied if its file parts can be moved |
| InboxFate.PushesShareKeyIff | internal/hub/service.go:772-790 | Two pushes to a Task are queued under one key exactly if they have the same key of their own, or have none and push the same observation |
| InboxFate.ObservationsShareBaseIff | internal/hub/service.go:814-822 | Two observations share the keys of their sub-steps exactly if they have the same key of their own, or have none and say the same |
| InboxWorker.InboxProcessor.RunOnce | internal/worker/inbox.go:45-71 | The loop claims the first claimable batch and leaves exactly the store that applying each item, then acknowledging it or retrying it with its backoff, gives |
| InboxWorker.RunOnceIsLegal | internal/worker/inbox.go:45-71 | From any reachable world, a whole round on the batch that RunOnce claims, from the claims to the last answer, leads to a reachable world, so what it acknowledges was applied; only event IDs must be new |
| InboxRound.EveryItemIsAnswered | internal/worker/inbox.go:45-71 | On every healthy store, of the items that RunOnce claims exactly those are acknowledged that decoded, could move their file parts and named no other remote Task than their Task in their turn; every other one is free, not acknowledged, and can be claimed exactly from its retry time on |
| Backoff.BackoffGrowsWithinBounds | internal/worker/inbox.go:73-82 | The delay stays between base and maximum and never shrinks with further attempts |
| Backoff.DelayIsDoubled | internal/worker/inbox.go:73-82 | The delay is the base doubled for each attempt after the first, but no more than the maximum |
| OutboxDelivery.AckedItemsAreOnDiskOnce | internal/worker/file_outbox.go:54-80 | Whatever workers, failed writes and crashes there were, an acknowledged item's key is on disk exactly once, and a dead letter had its allowed attempts |
| OutboxDelivery.ReportedItemsAreWrittenIffKeysDiffer | internal/worker/file_outbox.go:54-66 | Every item whose publication was reported, which includes every acknowledged one, is itself on disk if and only if no two of them share tenant and key joined by a colon |
| OutboxDelivery.SharedKeyLosesOne | internal/worker/file_outbox.go:54-66 | Of two acknowledged items that share such a key, at most one is on disk |
| OutboxDelivery.AckedItemIsLost | internal/core/store.go:957-959 | For any two items of two Tasks of one tenant with the same key there is a legal run from the start after which one is acknowledged and not on disk, although no other item is acknowledged |
| OutboxDelivery.OpenSink | internal/worker/file_outbox.go:25-52 | Opening the sink succeeds if and only if every line fits the scanner's default 64 KiB, and then knows exactly the keys on the file |
| SinkLimits.SinkOpensIffReportedItemsFit | internal/worker/file_outbox.go:37-50 | After every run of workers and crashes, the sink can be opened again if and only if every reported item that is on the file fits the scanner's buffer |
| SinkLimits.RestartableIsReachable | internal/worker/file_outbox.go:25-52 | A world whose crashes end in a reopening only if the sink can be read is one of the delivery worlds, so the delivery guarantees hold in it |
| SinkLimits.UnreadableSinkEndsRestarts | internal/worker/file_outbox.go:37-50 | Once the sink cannot be read, no later world can reopen it |
| SinkLimits.LongItemBlocksReopening | internal/worker/file_outbox.go:54-80 | For every item that is too long there is a run from the start without any failure in which it is published and acknowledged, and after which the sink can never be opened again |
| OutboxWorker.OutboxProcessor.RunOnce | internal/worker/outbox.go:52-103 | The loop claims the first claimable batch and leaves exactly the store and sink that publishing each item, then acking, retrying or dead-lettering it, gives |
| OutboxWorker.RunOnceIsLegal | internal/worker/outbox.go:52-103 | A whole round on a batch of claimable items is legal behaviour in the delivery world |
| OutboxWorker.RunOnceDelivers | internal/worker/outbox.go:52-103 | From any reachable world, the round that RunOnce makes leads to a reachable one, in which every acknowledged item's key is on disk once and every dead letter had its attempts |
| OutboxRound.EveryItemIsAnswered | internal/worker/outbox.go:52-103 | Of the items that RunOnce claims exactly those are acknowledged whose key the sink had or took in their turn, exactly those are dead letters that had their attempts instead, and every other one is free and can be claimed exactly from its retry time on |
| WorkflowGraph.ValidateWorkflowGraph | internal/orchestration/workflow.go:109-147 | For distinct step IDs the search accepts if and only if every dependency names a step and some rank puts each dependency strictly below its dependent |
| WorkflowSteps.SomethingMoves | internal/orchestration/workflow.go:163-206 | On an accepted graph, if a step is still to be scheduled, then a started Task has not ended or some step is ready or blocked: no deadlock |
| Scheduler.Coordinator.Classify | internal/orchestration/workflow.go:163-200 | The lists hold exactly the ready and the blocked steps, each once |
| ScheduleRuns.SubmissionsAreSafe | internal/orchestration/workflow.go:163-258 | Over every run of moves: no step is sent to the provider twice, every step with a Task was sent, batches hold at most maxConcurrency steps, and each was ready in the very state in which its batch was sent: dependencies ended, all COMPLETED if it is required |
| ScheduleRuns.SentOnlyAfterDependencies | internal/orchestration/workflow.go:163-258 | In every reachable state of a workflow whose Tasks stay as they end, every step ever sent has only ended dependencies, and only COMPLETED ones if it is required |
| ScheduleRuns.ReachableIsGood | internal/orchestration/workflow.go:684-747 | In every reachable state exactly the sent steps are with the provider or have their start recorded, and the aggregate is PENDING until a step moves and has the state of its steps afterwards |
| ScheduleRuns.AggregateTellsItsSteps | internal/orchestration/workflow.go:716-747 | In every reachable state: PENDING until a change is recorded, then COMPLETED exactly if every step is, FAILED exactly if all have ended and none completed, PARTIALLY_FAILED exactly if all have ended and some but not all completed, WAITING_INPUT exactly if some step waits for input or authorisation, and RUNNING otherwise |
| StepHistory.StepTellsItsPast | internal/orchestration/workflow.go:206-258 | After every run of moves, a step whose answer was recorded has one attempt more, the Task and agent that were answered and the state that the last news said; a rejected step is REJECTED; every other one is as it was defined |
| Scheduler.Coordinator.SubmitWorkflowReady | internal/orchestration/workflow.go:153-260 | Whatever the provider answers, the loop ends, has made only such moves, and submitted to the provider exactly what they say; nothing was ready at its last classification, only rejections came after that, and it schedules a step if the started Tasks had ended |
| Scheduler.Coordinator.ReconcileWorkflow | internal/orchestration/workflow.go:384-425 | Every step with a Task takes over exactly the state and revision that the Task is seen in, every other stays as it is, then scheduling has the same guarantees |
| Scheduler.Coordinator.ContinueWorkflow | internal/orchestration/workflow.go:524-560 | Allowed exactly from WAITING_INPUT; exactly the steps that wait for input or authorisation take over what their Tasks answer, then scheduling has the same guarantees; otherwise nothing changes and nothing is submitted |
| Scheduler.StartWorkflow | internal/orchestration/workflow.go:274-380 | Accepts exactly definitions with a tenant, a version and a concurrency limit in range, at least one step, distinct step IDs and a valid graph; what it accepts starts a run of moves, and what it refuses submits nothing |
| Scheduler.WorkflowFinishes | internal/orchestration/workflow.go:153-260 | After as many calls as there are steps, each made when the started Tasks had ended, every step was scheduled; once their Tasks end, every step is terminal |
| Compensation.CompensatedIffEveryStepIs | internal/orchestration/workflow.go:622-682 | The verdict is COMPENSATED exactly when every completed step with a compensation has a recorded compensating Task that is COMPLETED and no recorded compensation failed |
| Compensation.VerdictTells | internal/orchestration/workflow.go:622-682 | With all Tasks readable, the state stays as it is exactly while a needed compensation has neither Task nor recorded failure or some Task still runs; else it becomes FAILED exactly if a failure is recorded or some Task ended badly, and COMPENSATED if not |
| Compensation.SubmissionsTell | internal/orchestration/workflow.go:588-618 | Exactly the steps submitted under an unused key get the Task and state that were answered, or a recorded failure; the workflow has failed if one of these did, and otherwise is COMPENSATING on its first try |
| Compensation.AcceptedTell | internal/orchestration/workflow.go:588-613 | The provider accepts one Task for each step that needs a compensation, has none and is answered, in step order, whether or not the answer can be kept |
| Compensation.Compensator.ReconcileCompensation | internal/orchestration/workflow.go:622-682 | The loop records what it sees of each Task and settles on that verdict |
| Compensation.Compensator.CompensateWorkflow | internal/orchestration/workflow.go:565-620 | Allowed exactly from a failed or partly failed workflow, and nothing changes otherwise; gives each step that lacks one its compensating Task, keeps an answer only under an unused key, then settles |
| Compensation.RetryCanSucceedIffRecoverable | internal/orchestration/workflow.go:588-613 | Some provider answers lead a retry to COMPENSATED if and only if each step has a compensating Task, or needs one and its submission key is unused, or needs none and no failure is recorded |
| Compensation.LostCompensationStaysLost | internal/orchestration/workflow.go:565-682 | Over every sequence of retries and reconciliations with any answers: a failed submission stays lost, the workflow never becomes COMPENSATED, and at each retry the provider accepts another Task, whose ID is dropped |
| Definitions.NormalizeDependencies | internal/orchestration/workflow.go:19-38 | Refuses exactly blank and self dependencies, and otherwise returns the sorted, distinct, trimmed names |
| Definitions.NormalFormIsUnique | internal/orchestration/workflow.go:19-38 | Lists that name the same steps have the same normal form, whatever their order, repetitions and white space |
| Definitions.NormalFormIsStable | internal/orchestration/workflow.go:19-38 | Normalising a normal form changes nothing |
| Text.TrimCutsSpace | internal/orchestration/workflow.go:19-38 | Trimming cuts white space off both ends, and all of it |
| Definitions.NormalizeArtifactInputs | internal/orchestration/workflow.go:40-70 | Accepts exactly inputs that name direct dependencies with non-negative part indices and have no key twice, and returns them trimmed |
| Definitions.InputsAreGoodIff | internal/orchestration/workflow.go:40-70 | Without NUL in artifact IDs: inputs are accepted exactly if each names a direct dependency and no negative part, and no two are the same once trimmed |
| Definitions.StepIsGoodIff | internal/orchestration/workflow.go:298-331 | A step is taken exactly if it has an agent or a skill, its content is accepted, its dependencies are others by name, and its inputs are accepted |
| Definitions.InputKeyIsInjective | internal/orchestration/workflow.go:40-70 | Without NUL in artifact IDs, two inputs have the same key exactly if they are the same input |
| Templates.CompiledDefinitionIsAccepted | internal/orchestration/templates.go:38-97 | Every admissible template run compiles to steps with distinct IDs that pass normalisation and whose graph is accepted |
| Templates.CompiledDefinitionIs | internal/orchestration/templates.go:38-97 | Which inputs a template takes, and what it compiles to: who does which step on what and after which, whether a dependency is required, and the run's own ID, name, key and concurrency limit |
| Templates.PipelineHasOneOrder | internal/orchestration/templates.go:38-97 | For a sequential pipeline of n agents, an order of its steps is topological if and only if it is stage-1 to stage-n |
| Templates.StartWorkflowTemplate | internal/orchestration/templates.go:27-33 | Starting a template is accepted exactly if there is a tenant, the input is admissible and the concurrency limit is at most 1024: no later check can fail; the workflow started has exactly the steps of that topology |
| TokenBucket.TokenBucketLimiter.AllowRequest | internal/access/rate_limit.go:51-84 | The call in place computes the specified refill, charge, prune and retry time |
| TokenBucket.WindowBoundIffBurstRefills | internal/access/rate_limit.go:51-100 | For every valid configuration: in every run, for every key and window, the requests admitted number at most burst + rate * length, if and only if burst is at most rate * pruneAfter |
| TokenBucket.PruneInvisibleIffBurstRefills | internal/access/rate_limit.go:93-100 | Pruning is invisible to every later request exactly under the same condition |
| TokenBucket.NewLimiterRefillsIff | internal/access/rate_limit.go:31-49 | A limiter as constructed meets the condition exactly if burst is at most 60 times the rate per minute |
| TokenBucket.NewLimiterIs | internal/access/rate_limit.go:31-49 | The constructor refuses exactly a rate that is not positive; a minute refills a minute's worth, the burst is the one given or a minute's worth up to 60, and pruning takes an hour |
| TokenBucket.PruningDropsIdle | internal/access/rate_limit.go:93-100 | Exactly the buckets idle for longer than pruneAfter are dropped |
| TokenBucket.WaitingRetryAdmits | internal/access/rate_limit.go:71-83 | Waiting the returned number of seconds without another request of the key guarantees admission, whatever other clients do |
| TokenBucket.RetryIsLeast | internal/access/rate_limit.go:71-83 | No shorter positive whole number of seconds is enough |
| ArtifactIngest.AvailableObjectsHaveBlobs | internal/artifact/service.go:125-195 | In every interleaving of ingests and lifecycle workers, stopping anywhere, every available or quarantined object has its blob under its storage key, if ingests of one object do not overlap |
| ArtifactRaces.OverlapsHarmlessIffOneVerdictEach | internal/artifact/service.go:145-195 | With overlapping ingests that meet verdicts from given sets, the same holds in every reachable world if and only if no object has two different verdicts |
| ArtifactRestart.RestartIsReopen | internal/core/model.go:346 | The restart of that world is what reopening the journal makes of the artifacts, in every state of every run |
| ArtifactRestart.RestartStrandsObjects | internal/artifact/service.go:205-223 | After a restart an object that was available, quarantined or being deleted has no storage key in any later world, so it is never opened, its deletion never completes, and it stays charged |
| ArtifactServiceImpl.StatusFollowsEdges | internal/core/store.go:1403-1636 | Whatever is called after whatever run, an object's status moves along an intended edge or not at all |
| ArtifactServiceImpl.DeletedIsAbsorbing | internal/core/store.go:1604-1636 | DELETED is absorbing, reopenings included |
| ArtifactServiceImpl.ArtifactService.Ingest | internal/artifact/service.go:81-196 | Succeeds exactly if the bytes are admitted, the object can be reserved and is then final, or pending, passed by the scan and its blob written; the object is then final with its blob in place and, if it was pending, has the scan's status, is QUARANTINED exactly if that is INFECTED and AVAILABLE otherwise, so that Open hands it out exactly if it is not infected, and clean where that is required; nothing else changes, a failed ingest is recorded with its reason and leaves no blob of its own, and refused bytes change nothing |
| ArtifactServiceImpl.ArtifactService.Open | internal/artifact/service.go:205-223 | In one process lifetime, opening succeeds exactly for available objects that may be served |
| ArtifactLifecycle.Lifecycle.RunOnce | internal/artifact/lifecycle.go:49-82 | A round claims the first expired batch, deletes the blobs that can be deleted, completes or reschedules each deletion, and stays within the world of ArtifactIngest |
| LifecycleRound.EveryObjectIsSettled | internal/artifact/lifecycle.go:49-82 | Of the objects that RunOnce claims exactly those whose blob could be deleted are DELETED and their blobs gone; the others are DELETING, free, and can be claimed exactly from their retry time on; no other blob is touched |
| AuditChain.FileAuditSink.LoadChainState | internal/access/audit.go:97-140 | Accepts exactly the files whose lines decode and fit 1 MiB and whose chain holds; otherwise leaves the sink's state untouched |
| AuditChain.WrittenFilesLoad | internal/access/audit.go:66-140 | From any accepted file, a run of records and reopenings goes through if and only if every line fits at each reopening, and the file loads to exactly the writer's sequence and previous hash |
| AuditChain.FileHoldsRecords | internal/access/audit.go:66-95 | The file holds what it held and every content recorded since, in order, as records of version 1 |
| AuditChain.AcceptedLinesDecode | internal/access/audit.go:97-122 | Every line of an accepted file is blank or decodes |
| AuditChain.LegacyPrefixThenChain | internal/access/audit.go:123-129 | A file of records without a hash is accepted, and every run that starts from it goes through under the same condition and loads to the writer's state |
| AuditChain.LongRecordBlocksReopening | internal/access/audit.go:66-104 | One record that is too long is written, and every later reopening is refused |
| AuditChain.SameHashSameFile | internal/access/audit.go:114-150 | With a collision-free digest, two accepted, fully chained files that end in the same hash hold the same records |
| AuditChain.FinalStateFixesRecordsIff | internal/access/audit.go:107-130 | Among all files that loadChainState accepts with the same final state as a given one, all hold the same records if and only if there is at most one record; a fully chained file is no exception |
| AuditChain.LegacyRecordHidesHistory | internal/access/audit.go:123-129 | After a record without a hash, two accepted files are indistinguishable exactly if they count the same number of records |

## Findings

Where the code does not keep what its comments or documents promise, the model follows the code; the lemma named
shows the input and the exact condition.

- The JSON encoding of an artifact object leaves out its storage key (internal/core/model.go:346), so a restarted
  journal store cannot find, serve or delete any bytes it had stored, and keeps charging for them:
  `RestartKeepsObjectIffUnkeyed`, `RestartStrandsObjects`.
- Two overlapping ingests of one object can delete the bytes of an object that stays AVAILABLE, if their scans end
  differently: the one that meets a conflict undoes the shared blob (internal/artifact/service.go:175-190).
  `OverlapsHarmlessIffOneVerdictEach` is the exact condition.
- The file sink's key is tenant and deduplication key (internal/worker/file_outbox.go:54-66), but the store tells
  items of different Tasks apart (internal/core/store.go:957-959). Two Tasks with the same key lose an item, which is
  acknowledged and never on disk: `AckedItemIsLost`, `ReportedItemsAreWrittenIffKeysDiffer`. The condition is on
  reported publications, because the item that took the key need not be acknowledged yet.
- A compensating submission that failed is recorded under the same key as one that succeeded
  (internal/orchestration/workflow.go:594, 608), so no retry can ever make it good, although the recorded problem says
  it is retryable and every retry submits a new Task: `RetryCanSucceedIffRecoverable`, `LostCompensationStaysLost`.
- Pruning a bucket that is not full again gives tokens away (internal/access/rate_limit.go:93-100); the window bound
  fails exactly then: `WindowBoundIffBurstRefills`.
- The journal, the audit file and the file sink are written without a limit on the line and read with one (16 MiB,
  1 MiB, 64 KiB). One longer line keeps the file from being opened ever again: `LongCommitBlocksReopening`,
  `LongRecordBlocksReopening`, `LongItemBlocksReopening`.
- The store accepts an acknowledgement without an owner for a dead letter: `UnnamedAckSpoilsDeadLetter`.
- The final state of the audit chain protects no file of two or more records. A record whose hash is left out is taken
  as it stands (internal/access/audit.go:123-129), and stripping the hash of the last record does not change what it
  is hashed to, so everything before it can be replaced by as many records without hashes:
  `FinalStateFixesRecordsIff`, and `LegacyRecordHidesHistory` for a file that ends in such a record. `SameHashSameFile`
  holds between files that are known to be fully chained.
- An inbox item that does not decode, names no remote Task or another one than its Task has is retried for ever
  (internal/hub/service.go:794-812). `ItemIsAppliedSometimeIff` is the exact condition, `MismatchIsForever` what
  becomes of the others.

## Left out

- JournalStoreImpl.JournalStore: the maps are grouped into one field for each of tasks, inbox, outbox, artifacts and workflows, and returned values are not aliased.
- JournalRefinement.ReplayRestoresMemory: `append` is atomic; a write that succeeds while its sync fails is not modelled, and JSON is an injective codec except for the storage key.
- LeaseExclusion.OnlyClaimantCompletes: for non-empty owners, as every worker uses; the store itself accepts an empty owner for a free lease.
- OutboxMachine.OutboxAlwaysConsistent: for calls whose acknowledgements and renewals name an owner; without that it is false, see UnnamedAckSpoilsDeadLetter.
- EventLog.LogsAgree: new IDs are fresh and mutate functions leave identity and counters alone; ChangesMoveForward proves the latter for the service's own functions.
- ObservationProtocol.RedeliveryIsExactlyOnce: every delivery has the same moved artifacts; Redelivery.FreshRedeliveryIsExactlyOnce is the case in which they differ.
- InboxDelivery.AckedItemsAreAppliedOnce: identifies the event by its key; InboxContent.AppliedEventReportsSubStep says when its content is the sub-step's own.
- ArtifactIngest.AvailableObjectsHaveBlobs: a blob is written or deleted as a whole or not at all, and one process lifetime; RestartStrandsObjects says what a restart does.
- Scheduler.Coordinator.SubmitWorkflowReady: calls on one workflow do not overlap and do not crash inside; the answers to a batch are recorded in any order.
- ArtifactServiceImpl.ArtifactService.Ingest: reading, measuring and typing the bytes is one answer, admitted or not.
- Scheduler.StartWorkflow: the order in which several errors of one definition are reported, and the replay of an existing workflow with the same idempotency key.
- ScheduleRuns.SentOnlyAfterDependencies: for Tasks whose terminal state stays, which TaskChanges.TasksMoveForward proves of the service's Tasks; ScheduleRuns.SubmissionsAreSafe needs no such assumption.
- Compensation.RetryCanSucceedIffRecoverable: step IDs hold no colon and differ from "started".
- TokenBucket.WindowBoundIffBurstRefills: over the reals and a clock that does not go back; float rounding is not modelled.
- Terminal workflow states are not absorbing, and one scheduling call does not propagate blocking transitively: neither is claimed.
- The work lease heartbeat of the reconciler (internal/worker/reconciler.go): goroutines and channels around the work lease operations, which are modelled.
- The service's SubmitTask and ContinueTask beyond the changes they commit: input validation and provider calls.
- StoreLaws.ControlIsSetIff: upper case is that of ASCII letters.
- Integer widths: counters, sizes and attempts are unbounded.
- The PostgreSQL store: its guarantees rest on SQL that is not part of this model.
- HTTP routing, cursor parsing, authentication, TLS, command line, S3, NATS, SMTP, metrics and tracing: input and output.
- Cryptography and hashing: digests are parameters.
- Pause, resume, cancel and artifact projection of workflows: they add only easy members.
