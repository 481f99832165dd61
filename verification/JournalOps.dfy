/**
 The store's operations: what each one decides in a given state, and what a run of them does
 to the memory and to the journal file (internal/core/store.go).
 A batch claim or purge is a run of the one-key operations ClaimWork, ClaimInbox, ClaimOutbox,
 ClaimExpired and PurgeOutbox; JournalStore proves its loops against exactly that.
 */
module JournalOps {
  import opened Wrappers
  import opened Model
  import opened Journal
  import Text

  datatype StoreError =
    NotFound | Conflict | RevisionConflict | LeaseLost | QuotaExceeded | Invalid |
    MutatorFailed | UsageInvariantViolated

  /** A store call's mutate argument: the new Task and event, or an error. */
  type TaskMutator = Task -> Option<(Task, Event)>
  type WorkflowMutator = Workflow -> Option<(Workflow, WorkflowEvent)>

  datatype WorkOp =
    | ClaimWork(key: Key, owner: string, now: Time, duration: int)
    | RenewWork(key: Key, owner: string, now: Time, duration: int)
    | ReleaseWork(key: Key, owner: string, availableAt: Time, resetAttempts: bool)

  datatype InboxOp =
    | EnqueueInbox(item: InboxItem)
    | ClaimInbox(id: string, owner: string, now: Time, duration: int)
    | RenewInbox(id: string, owner: string, now: Time, duration: int)
    | AckInbox(id: string, owner: string)
    | RetryInbox(id: string, owner: string, availableAt: Time)

  datatype OutboxOp =
    | EnqueueOutbox(item: OutboxItem)
    | ClaimOutbox(id: string, owner: string, now: Time, duration: int)
    | RenewOutbox(id: string, owner: string, now: Time, duration: int)
    | AckOutbox(id: string, owner: string, now: Time)
    | RetryOutbox(id: string, owner: string, availableAt: Time)
    | DeadLetterOutbox(id: string, owner: string, reason: string, now: Time)
    | ReplayOutbox(tenant: string, id: string, now: Time)
    | PurgeOutbox(tenant: string, id: string, before: Time, now: Time)

  datatype ArtifactOp =
    | ReserveArtifact(obj: ArtifactObject, quota: ArtifactQuota)
    | FinalizeArtifact(key: Key, storageKey: string, mediaType: string, scan: ScanStatus,
                       status: ObjectStatus, now: Time)
    | FailArtifact(key: Key, failureCode: string, now: Time)
    | ClaimExpired(key: Key, owner: string, now: Time, duration: int)
    | RenewArtifact(key: Key, owner: string, now: Time, duration: int)
    | CompleteDeletion(key: Key, owner: string, now: Time)
    | RetryDeletion(key: Key, owner: string, availableAt: Time)

  datatype Op =
    | PutAgent(agent: Agent)
    | CreateTask(task: Task, draft: Event, eventId: string)
    | ApplyTask(key: Key, expected: nat, dedup: string, mutate: TaskMutator, eventId: string)
    | WorkCall(work: WorkOp)
    | InboxCall(inbox: InboxOp)
    | OutboxCall(outbox: OutboxOp)
    | ArtifactCall(artifact: ArtifactOp)
    | RevokeToken(revocation: TokenRevocation)
    | PruneRevocations(now: Time)
    | CreateWorkflow(workflow: Workflow, workflowDraft: WorkflowEvent, eventId: string)
    | ApplyWorkflow(key: Key, expected: nat, dedup: string, change: WorkflowMutator, eventId: string)
    | SetControl(control: WorkerControl, expected: nat, now: Time)
    | Reopen

  /** Refuse: an error; Keep: success without a record; Commit: one record is appended and applied. */
  datatype Decision = Refuse(error: StoreError) | Keep | Commit(record: Record)

  function LocalKey(given: string, eventId: string): string {
    if given == "" then "local:" + eventId else given
  }

  function Stamp(draft: Event, task: Task, dedup: string, eventId: string): Event {
    draft.(id := eventId, taskId := task.id, tenantId := task.tenantId,
           sequence := task.lastSequence, dedupKey := LocalKey(dedup, eventId))
  }

  function DecideCreateTask(s: TaskStore, task: Task, draft: Event, eventId: string): (d: Decision)
    ensures d.Commit? ==> d.record.TaskRecord?
  {
    if task.ResourceKey() in s.tasks then Refuse(Conflict)
    else
      var created := task.(revision := 1, lastSequence := 1);
      var event := Stamp(draft, created, draft.dedupKey, eventId);
      Commit(TaskRecord(created, event, FromEvent(event)))
  }

  function DecideApplyTask(s: TaskStore, key: Key, expected: nat, dedup: string,
                           mutate: TaskMutator, eventId: string): (d: Decision)
    ensures d.Commit? ==> d.record.TaskRecord?
  {
    if key !in s.tasks then Refuse(NotFound)
    else if expected != 0 && s.tasks[key].revision != expected then Refuse(RevisionConflict)
    else if dedup != "" && dedup in Get(s.dedupKeys, key, {}) then Keep
    else
      match mutate(s.tasks[key])
      case None => Refuse(MutatorFailed)
      case Some((mutated, draft)) =>
        var updated := mutated.(revision := mutated.revision + 1, lastSequence := mutated.lastSequence + 1);
        var event := Stamp(draft, updated, dedup, eventId);
        Commit(TaskRecord(updated, event, FromEvent(event)))
  }

  function DecideCreateWorkflow(s: WorkflowStore, w: Workflow, draft: WorkflowEvent, eventId: string): (d: Decision)
    ensures d.Commit? ==> d.record.WorkflowRecord?
  {
    if w.tenantId == "" || w.id == "" || |w.steps| == 0 then Refuse(Invalid)
    else if w.ResourceKey() in s.workflows then Refuse(Conflict)
    else
      Commit(WorkflowRecord(w.(revision := 1, lastSequence := 1),
                            draft.(id := eventId, workflowId := w.id, tenantId := w.tenantId, sequence := 1,
                                   dedupKey := LocalKey(draft.dedupKey, eventId))))
  }

  function DecideApplyWorkflow(s: WorkflowStore, key: Key, expected: nat, dedup: string,
                               change: WorkflowMutator, eventId: string): (d: Decision)
    ensures d.Commit? ==> d.record.WorkflowRecord?
  {
    if key !in s.workflows then Refuse(NotFound)
    else if expected != 0 && s.workflows[key].revision != expected then Refuse(RevisionConflict)
    else if dedup != "" && dedup in Get(s.dedupKeys, key, {}) then Keep
    else
      match change(s.workflows[key])
      case None => Refuse(MutatorFailed)
      case Some((changed, draft)) =>
        var updated := changed.(revision := changed.revision + 1, lastSequence := changed.lastSequence + 1);
        Commit(WorkflowRecord(updated,
                              draft.(id := eventId, workflowId := updated.id, tenantId := updated.tenantId,
                                     sequence := updated.lastSequence, dedupKey := LocalKey(dedup, eventId))))
  }

  predicate WorkClaimable(tasks: map<Key, Task>, leases: map<Key, Lease>, key: Key, now: Time) {
    key in tasks && !tasks[key].state.Terminal() && tasks[key].remoteTaskId != "" &&
    !Get(leases, key, NO_LEASE).Blocked(now)
  }

  predicate InboxClaimable(s: InboxStore, id: string, now: Time) {
    id in s.items && !Get(s.states, id, NO_INBOX_STATE).acked &&
    !Get(s.states, id, NO_INBOX_STATE).lease.Blocked(now)
  }

  predicate OutboxClaimable(s: OutboxStore, id: string, now: Time) {
    id in s.items &&
    var state := Get(s.states, id, NO_OUTBOX_STATE);
    !state.acked && !state.deadLettered && !state.purged && !state.lease.Blocked(now)
  }

  predicate DeletionClaimable(s: ArtifactStore, key: Key, now: Time) {
    key in s.objects &&
    var obj := s.objects[key];
    (obj.status.Available? || obj.status.Quarantined? || obj.status.Deleting?) &&
    obj.expiresAt <= now && !Get(s.leases, key, NO_LEASE).Blocked(now)
  }

  predicate Purgeable(s: OutboxStore, tenant: string, id: string, before: Time) {
    id in s.items && s.items[id].tenantId == tenant && s.items[id].createdAt < before &&
    var state := Get(s.states, id, NO_OUTBOX_STATE);
    (state.acked || state.deadLettered) && !state.purged
  }

  predicate SameIdentity(a: ArtifactObject, b: ArtifactObject) {
    a.tenantId == b.tenantId && a.taskId == b.taskId && a.artifactId == b.artifactId &&
    a.partIndex == b.partIndex && a.sha256 == b.sha256 && a.sizeBytes == b.sizeBytes
  }

  predicate ValidReservation(o: ArtifactObject) {
    o.id != "" && o.tenantId != "" && o.taskId != "" && o.artifactId != "" &&
    o.sha256 != "" && o.sizeBytes >= 0 && o.expiresAt != ZERO_TIME
  }

  function UsageOf(s: ArtifactStore, tenant: string): ArtifactUsage {
    Get(s.usage, tenant, ArtifactUsage("", 0, 0))
  }

  function DecideReserve(s: ArtifactStore, o: ArtifactObject, quota: ArtifactQuota): (d: Decision)
    ensures d.Commit? ==> d.record.ArtifactRecord?
  {
    var key := o.ResourceKey();
    if !ValidReservation(o) then Refuse(Invalid)
    else if key in s.objects && !SameIdentity(s.objects[key], o) then Refuse(Conflict)
    else if key in s.objects && !s.objects[key].status.FailedObject? then Keep
    else
      var usage := UsageOf(s, o.tenantId);
      if (quota.maxBytes > 0 && usage.bytes + o.sizeBytes > quota.maxBytes) ||
         (quota.maxObjects > 0 && usage.objects + 1 > quota.maxObjects) then Refuse(QuotaExceeded)
      else
        Commit(ArtifactRecord(
                 Some(o.(status := Pending, scanStatus := NotScanned, storageKey := "",
                         failureCode := "", deletedAt := None)),
                 Some(ArtifactUsage(o.tenantId, usage.bytes + o.sizeBytes, usage.objects + 1)),
                 None))
  }

  function DecideFinalize(s: ArtifactStore, key: Key, storageKey: string, mediaType: string,
                          scan: ScanStatus, status: ObjectStatus, now: Time): (d: Decision)
    ensures d.Commit? ==> d.record.ArtifactRecord?
  {
    if storageKey == "" || !(status.Available? || status.Quarantined?) then Refuse(Invalid)
    else if key !in s.objects then Refuse(NotFound)
    else
      var o := s.objects[key];
      if !o.status.Pending? then
        if o.status == status && o.storageKey == storageKey then Keep else Refuse(Conflict)
      else
        Commit(ArtifactRecord(
                 Some(o.(storageKey := storageKey, detectedMediaType := mediaType, scanStatus := scan,
                         status := status, updatedAt := now)),
                 None, None))
  }

  function DecideFail(s: ArtifactStore, key: Key, failureCode: string, now: Time): (d: Decision)
    ensures d.Commit? ==> d.record.ArtifactRecord?
  {
    if key !in s.objects then Refuse(NotFound)
    else
      var o := s.objects[key];
      if o.status.FailedObject? then Keep
      else if !o.status.Pending? then Refuse(Conflict)
      else
        var usage := UsageOf(s, key.tenant);
        if usage.bytes - o.sizeBytes < 0 || usage.objects - 1 < 0 then Refuse(UsageInvariantViolated)
        else
          Commit(ArtifactRecord(
                   Some(o.(status := FailedObject, failureCode := failureCode, updatedAt := now)),
                   Some(usage.(bytes := usage.bytes - o.sizeBytes, objects := usage.objects - 1)),
                   None))
  }

  function DecideCompleteDeletion(s: ArtifactStore, key: Key, owner: string, now: Time): (d: Decision)
    ensures d.Commit? ==> d.record.ArtifactRecord?
  {
    if key !in s.leases || key !in s.objects ||
       s.leases[key].owner != owner || !s.objects[key].status.Deleting? then Refuse(LeaseLost)
    else
      var o := s.objects[key];
      var usage := UsageOf(s, o.tenantId);
      if usage.bytes - o.sizeBytes < 0 || usage.objects - 1 < 0 then Refuse(UsageInvariantViolated)
      else
        Commit(ArtifactRecord(
                 Some(o.(status := Deleted, updatedAt := now, deletedAt := Some(now))),
                 Some(usage.(bytes := usage.bytes - o.sizeBytes, objects := usage.objects - 1)),
                 Some((key, NO_LEASE))))
  }

  function DecideOutboxState(s: OutboxStore, id: string, owner: string): Option<OutboxState> {
    if id in s.states && s.states[id].lease.owner == owner && !s.states[id].acked
    then Some(s.states[id]) else None
  }

  function DecideOutbox(s: OutboxStore, op: OutboxOp): (d: Decision)
    ensures d.Commit? ==> d.record.OutboxStateRecord? || (op.EnqueueOutbox? && d.record == OutboxRecord(op.item))
  {
    match op
    case EnqueueOutbox(item) =>
      if item.id == "" || item.tenantId == "" || item.taskId == "" || item.dedupKey == "" || item.topic == ""
      then Refuse(Invalid)
      else if OutboxDedupKey(item) in s.dedup then Keep
      else Commit(OutboxRecord(item))
    case ClaimOutbox(id, owner, now, duration) =>
      if owner == "" || duration <= 0 then Refuse(Invalid)
      else if !OutboxClaimable(s, id, now) then Keep
      else
        var state := Get(s.states, id, NO_OUTBOX_STATE);
        Commit(OutboxStateRecord(id, state.(lease := state.lease.Claimed(owner, now, duration))))
    case RenewOutbox(id, owner, now, duration) =>
      (match DecideOutboxState(s, id, owner)
       case Some(state) =>
         if state.lease.expiresAt <= now then Refuse(LeaseLost)
         else Commit(OutboxStateRecord(id, state.(lease := state.lease.(expiresAt := now + duration))))
       case None => Refuse(LeaseLost))
    case AckOutbox(id, owner, now) =>
      (match DecideOutboxState(s, id, owner)
       case Some(state) =>
         Commit(OutboxStateRecord(id, state.(lease := state.lease.Freed(), acked := true, ackedAt := now)))
       case None => Refuse(LeaseLost))
    case RetryOutbox(id, owner, availableAt) =>
      (match DecideOutboxState(s, id, owner)
       case Some(state) =>
         if state.deadLettered then Refuse(LeaseLost)
         else Commit(OutboxStateRecord(id, state.(lease := state.lease.Freed().(availableAt := availableAt))))
       case None => Refuse(LeaseLost))
    case DeadLetterOutbox(id, owner, reason, now) =>
      (match DecideOutboxState(s, id, owner)
       case Some(state) =>
         if state.deadLettered then Refuse(LeaseLost)
         else Commit(OutboxStateRecord(id, state.(lease := state.lease.Freed(), deadLettered := true,
                                                  lastError := reason, deadLetterAt := now)))
       case None => Refuse(LeaseLost))
    case ReplayOutbox(tenant, id, now) =>
      if id !in s.items || s.items[id].tenantId != tenant then Refuse(NotFound)
      else
        var state := Get(s.states, id, NO_OUTBOX_STATE);
        if !state.deadLettered || state.purged then Refuse(Invalid)
        else Commit(OutboxStateRecord(id, state.(deadLettered := false,
                                                 lease := state.lease.Freed().(availableAt := now),
                                                 lastError := "", deadLetterAt := ZERO_TIME)))
    case PurgeOutbox(tenant, id, before, now) =>
      if tenant == "" then Refuse(Invalid)
      else if !Purgeable(s, tenant, id, before) then Keep
      else
        var state := Get(s.states, id, NO_OUTBOX_STATE);
        Commit(OutboxStateRecord(id, state.(purged := true, purgedAt := now, lease := state.lease.Freed())))
  }

  function DecideInbox(s: InboxStore, op: InboxOp): (d: Decision)
    ensures d.Commit? ==> d.record.InboxRecord? || d.record.InboxStateRecord?
  {
    match op
    case EnqueueInbox(item) =>
      if item.id == "" || item.tenantId == "" || item.taskId == "" || item.dedupKey == ""
      then Refuse(Invalid)
      else if InboxDedupKey(item) in s.dedup then Keep
      else Commit(InboxRecord(item))
    case ClaimInbox(id, owner, now, duration) =>
      if owner == "" || duration <= 0 then Refuse(Invalid)
      else if !InboxClaimable(s, id, now) then Keep
      else
        var state := Get(s.states, id, NO_INBOX_STATE);
        Commit(InboxStateRecord(id, state.(lease := state.lease.Claimed(owner, now, duration))))
    case RenewInbox(id, owner, now, duration) =>
      if id !in s.states || s.states[id].lease.owner != owner ||
         s.states[id].lease.expiresAt <= now || s.states[id].acked then Refuse(LeaseLost)
      else
        var state := s.states[id];
        Commit(InboxStateRecord(id, state.(lease := state.lease.(expiresAt := now + duration))))
    case AckInbox(id, owner) =>
      if id !in s.states || s.states[id].lease.owner != owner || s.states[id].acked
      then Refuse(LeaseLost)
      else Commit(InboxStateRecord(id, InboxState(s.states[id].lease.Freed(), true)))
    case RetryInbox(id, owner, availableAt) =>
      if id !in s.states || s.states[id].lease.owner != owner || s.states[id].acked
      then Refuse(LeaseLost)
      else Commit(InboxStateRecord(id, InboxState(s.states[id].lease.Freed().(availableAt := availableAt), false)))
  }

  function DecideWork(tasks: map<Key, Task>, leases: map<Key, Lease>, op: WorkOp): (d: Decision)
    ensures d.Commit? ==> d.record.LeaseRecord?
  {
    match op
    case ClaimWork(key, owner, now, duration) =>
      if owner == "" || duration <= 0 then Refuse(Invalid)
      else if !WorkClaimable(tasks, leases, key, now) then Keep
      else Commit(LeaseRecord(key, Get(leases, key, NO_LEASE).Claimed(owner, now, duration)))
    case RenewWork(key, owner, now, duration) =>
      if key !in leases || leases[key].owner != owner || leases[key].expiresAt <= now
      then Refuse(LeaseLost)
      else Commit(LeaseRecord(key, leases[key].(expiresAt := now + duration)))
    case ReleaseWork(key, owner, availableAt, resetAttempts) =>
      if key !in leases || leases[key].owner != owner then Refuse(LeaseLost)
      else
        Commit(LeaseRecord(key, leases[key].Freed().(
                             availableAt := availableAt,
                             attempt := if resetAttempts then 0 else leases[key].attempt)))
  }

  function DecideArtifact(s: ArtifactStore, op: ArtifactOp): (d: Decision)
    ensures d.Commit? ==> d.record.ArtifactRecord? || d.record.ArtifactLeaseRecord?
  {
    match op
    case ReserveArtifact(obj, quota) => DecideReserve(s, obj, quota)
    case FinalizeArtifact(key, storageKey, mediaType, scan, status, now) =>
      DecideFinalize(s, key, storageKey, mediaType, scan, status, now)
    case FailArtifact(key, failureCode, now) => DecideFail(s, key, failureCode, now)
    case ClaimExpired(key, owner, now, duration) =>
      if owner == "" || duration <= 0 then Refuse(Invalid)
      else if !DeletionClaimable(s, key, now) then Keep
      else
        Commit(ArtifactRecord(
                 Some(s.objects[key].(status := Deleting, updatedAt := now)), None,
                 Some((key, Get(s.leases, key, NO_LEASE).Claimed(owner, now, duration)))))
    case RenewArtifact(key, owner, now, duration) =>
      if key !in s.leases || s.leases[key].owner != owner ||
         s.leases[key].expiresAt <= now then Refuse(LeaseLost)
      else Commit(ArtifactLeaseRecord(key, s.leases[key].(expiresAt := now + duration)))
    case CompleteDeletion(key, owner, now) => DecideCompleteDeletion(s, key, owner, now)
    case RetryDeletion(key, owner, availableAt) =>
      if key !in s.leases || s.leases[key].owner != owner then Refuse(LeaseLost)
      else Commit(ArtifactLeaseRecord(key, s.leases[key].Freed().(availableAt := availableAt)))
  }

  /** A worker mode without outer white space, in upper case. */
  function NormalMode(mode: string): string {
    Text.Upper(Text.Trim(mode))
  }

  predicate ValidMode(mode: string) {
    mode == "RUNNING" || mode == "PAUSED" || mode == "DRAINING"
  }

  function DecideSetControl(controls: map<string, WorkerControl>, control: WorkerControl, expected: nat,
                            now: Time): (d: Decision)
    ensures d.Commit? ==> d.record.ControlRecord?
  {
    var current := Get(controls, control.scope, WorkerControl("", "", 0, ZERO_TIME));
    var mode := NormalMode(control.mode);
    if Text.Trim(control.scope) == "" || !ValidMode(mode) then Refuse(Invalid)
    else if expected != 0 && current.revision != expected then Refuse(RevisionConflict)
    else Commit(ControlRecord(control.(mode := mode, revision := current.revision + 1, updatedAt := now)))
  }

  function Decide(s: State, op: Op): Decision {
    match op
    case PutAgent(agent) => Commit(AgentRecord(agent))
    case CreateTask(task, draft, eventId) => DecideCreateTask(s.work, task, draft, eventId)
    case ApplyTask(key, expected, dedup, mutate, eventId) =>
      DecideApplyTask(s.work, key, expected, dedup, mutate, eventId)
    case RevokeToken(r) =>
      if r.issuer == "" || r.tokenId == "" || r.tenantId == "" || r.revokedAt == ZERO_TIME || r.expiresAt == ZERO_TIME
      then Refuse(Invalid) else Commit(RevocationRecord(r))
    case CreateWorkflow(w, draft, eventId) => DecideCreateWorkflow(s.flows, w, draft, eventId)
    case ApplyWorkflow(key, expected, dedup, change, eventId) =>
      DecideApplyWorkflow(s.flows, key, expected, dedup, change, eventId)
    case SetControl(control, expected, now) => DecideSetControl(s.controls, control, expected, now)
    case PruneRevocations(_) => Keep
    case Reopen => Keep
    case WorkCall(work) => DecideWork(s.work.tasks, s.leases, work)
    case InboxCall(inbox) => DecideInbox(s.inbox, inbox)
    case OutboxCall(outbox) => DecideOutbox(s.outbox, outbox)
    case ArtifactCall(artifact) => DecideArtifact(s.artifacts, artifact)
  }

  /** Memory, file, and the latest time at which expired revocations were dropped from memory. */
  datatype System = System(mem: State, file: seq<Record>, pruned: Time)

  const INITIAL := System(EMPTY, [], ZERO_TIME)

  function Prune(m: Revocations, now: Time): Revocations {
    map k | k in m && now < m[k].expiresAt :: m[k]
  }

  function Exec(sys: System, op: Op): System {
    match op
    case PruneRevocations(now) =>
      sys.(mem := sys.mem.(revocations := Prune(sys.mem.revocations, now)),
           pruned := if now > sys.pruned then now else sys.pruned)
    case Reopen => sys.(mem := Replay(sys.file))
    case _ =>
      match Decide(sys.mem, op)
      case Commit(r) => sys.(mem := Apply(sys.mem, r), file := sys.file + [Encode(r)])
      case _ => sys
  }

  /** What one operation does to the artifact part of memory. */
  lemma ArtifactsAfterExec(sys: System, op: Op)
    ensures var next := Exec(sys, op).mem.artifacts;
            if op.Reopen? then next == Replay(sys.file).artifacts
            else if op.ArtifactCall? then
              var d := DecideArtifact(sys.mem.artifacts, op.artifact);
              next == (if d.Commit? then ArtifactsAfter(sys.mem.artifacts, d.record) else sys.mem.artifacts)
            else next == sys.mem.artifacts
  {
    if Decide(sys.mem, op).Commit? {
      ApplyByParts(sys.mem, Decide(sys.mem, op).record);
    }
  }

  /** What one operation does to the Tasks and their logs. */
  lemma WorkAfterExec(sys: System, op: Op)
    ensures var next := Exec(sys, op).mem.work;
            if op.Reopen? then next == Replay(sys.file).work
            else if (op.CreateTask? || op.ApplyTask?) && Decide(sys.mem, op).Commit? then
              next == AddEvent(sys.mem.work, Decide(sys.mem, op).record.task, Decide(sys.mem, op).record.event)
            else next == sys.mem.work
  {
    if Decide(sys.mem, op).Commit? {
      ApplyByParts(sys.mem, Decide(sys.mem, op).record);
    }
  }

  /** What one operation does to the inbox part of memory. */
  lemma InboxAfterExec(sys: System, op: Op)
    ensures var next := Exec(sys, op).mem.inbox;
            if op.Reopen? then next == Replay(sys.file).inbox
            else if op.InboxCall? then
              var d := DecideInbox(sys.mem.inbox, op.inbox);
              next == (if d.Commit? then InboxAfter(sys.mem.inbox, d.record) else sys.mem.inbox)
            else next == sys.mem.inbox
  {
    if Decide(sys.mem, op).Commit? {
      ApplyByParts(sys.mem, Decide(sys.mem, op).record);
    }
  }

  /** What one operation does to the outbox part of memory: a Task operation may add an item. */
  lemma OutboxAfterExec(sys: System, op: Op)
    ensures var next := Exec(sys, op).mem.outbox;
            if op.Reopen? then next == Replay(sys.file).outbox
            else if op.OutboxCall? then
              var d := DecideOutbox(sys.mem.outbox, op.outbox);
              next == (if d.Commit? then OutboxAfter(sys.mem.outbox, d.record) else sys.mem.outbox)
            else if op.CreateTask? || op.ApplyTask? then
              next == (if Decide(sys.mem, op).Commit?
                       then AddOutboxItem(sys.mem.outbox, Decide(sys.mem, op).record.outbox) else sys.mem.outbox)
            else next == sys.mem.outbox
  {
    if Decide(sys.mem, op).Commit? {
      ApplyByParts(sys.mem, Decide(sys.mem, op).record);
    }
  }

  /** What one operation does to the work leases. */
  lemma LeasesAfterExec(sys: System, op: Op)
    ensures var next := Exec(sys, op).mem.leases;
            if op.Reopen? then next == Replay(sys.file).leases
            else if op.WorkCall? then
              var d := DecideWork(sys.mem.work.tasks, sys.mem.leases, op.work);
              next == (if d.Commit? then sys.mem.leases[d.record.taskKey := d.record.lease] else sys.mem.leases)
            else next == sys.mem.leases
  {
    if Decide(sys.mem, op).Commit? {
      ApplyByParts(sys.mem, Decide(sys.mem, op).record);
    }
  }

  function Run(sys: System, ops: seq<Op>): System {
    if ops == [] then sys else Exec(Run(sys, ops[..|ops| - 1]), ops[|ops| - 1])
  }

  lemma RunAppend(sys: System, ops: seq<Op>, op: Op)
    ensures Run(sys, ops + [op]) == Exec(Run(sys, ops), op)
  {
    assert (ops + [op])[..|ops|] == ops;
  }
}
