/**
 Laws that span the store's operations (internal/core/store.go): no update is lost, no key is used twice, a token is
 revoked exactly while its last revocation lasts, and a reservation is refused for quota exactly if it would exceed it.
 */
module StoreLaws {
  import opened Wrappers
  import opened Model
  import opened Journal
  import opened JournalOps
  import Text
  import opened JournalRefinement
  import opened MapSum
  import opened QuotaConservation

  // Optimistic concurrency

  /** What carries a revision. */
  datatype Versioned = TaskAt(key: Key) | WorkflowAt(key: Key) | ControlAt(scope: string)

  function RevisionOf(s: State, v: Versioned): nat {
    match v
    case TaskAt(k) => if k in s.work.tasks then s.work.tasks[k].revision else 0
    case WorkflowAt(k) => if k in s.flows.workflows then s.flows.workflows[k].revision else 0
    case ControlAt(scope) => if scope in s.controls then s.controls[scope].revision else 0
  }

  /** The operation is an update of that, on condition of an expected revision; 0 is no condition. */
  predicate Expects(op: Op, v: Versioned, expected: nat) {
    match v
    case TaskAt(k) => op.ApplyTask? && op.key == k && op.expected == expected
    case WorkflowAt(k) => op.ApplyWorkflow? && op.key == k && op.expected == expected
    case ControlAt(scope) => op.SetControl? && op.control.scope == scope && op.expected == expected
  }

  /** A mutate argument leaves names and counters alone. */
  ghost predicate KeepsCounters(op: Op) {
    (op.ApplyTask? ==> forall t :: op.mutate(t).Some? ==>
       op.mutate(t).value.0.ResourceKey() == t.ResourceKey() && op.mutate(t).value.0.revision == t.revision) &&
    (op.ApplyWorkflow? ==> forall w :: op.change(w).Some? ==>
       op.change(w).value.0.ResourceKey() == w.ResourceKey() && op.change(w).value.0.revision == w.revision)
  }

  ghost predicate WellKept(ops: seq<Op>) {
    forall op :: op in ops ==> KeepsCounters(op)
  }

  /** Everything is filed under its own name. */
  ghost predicate FiledByName(s: State) {
    TasksByName(s) && WorkflowsByName(s)
  }

  ghost predicate TasksByName(s: State) {
    forall k :: k in s.work.tasks ==> s.work.tasks[k].ResourceKey() == k
  }

  ghost predicate WorkflowsByName(s: State) {
    forall k :: k in s.flows.workflows ==> s.flows.workflows[k].ResourceKey() == k
  }

  /** An update on condition of a revision that the thing does not have is refused, and changes nothing. */
  lemma ConditionIsChecked(sys: System, op: Op, v: Versioned, expected: nat)
    requires Expects(op, v, expected) && expected != 0 && RevisionOf(sys.mem, v) != expected
    ensures Decide(sys.mem, op).Refuse? && Exec(sys, op) == sys
  {
  }

  /** What a committed record does to a revision. */
  lemma ApplyMovesRevision(s: State, r: Record, v: Versioned)
    ensures RevisionOf(Apply(s, r), v) ==
            match v
            case TaskAt(k) => if r.TaskRecord? && r.task.ResourceKey() == k then r.task.revision else RevisionOf(s, v)
            case WorkflowAt(k) =>
              if r.WorkflowRecord? && r.workflow.ResourceKey() == k then r.workflow.revision else RevisionOf(s, v)
            case ControlAt(scope) =>
              if r.ControlRecord? && r.control.scope == scope then r.control.revision else RevisionOf(s, v)
  {
    ApplyByParts(s, r);
  }

  /** A committed update takes the revision one further. */
  lemma CommitCounts(s: State, op: Op, v: Versioned, expected: nat)
    requires Expects(op, v, expected) && KeepsCounters(op) && FiledByName(s) && Decide(s, op).Commit?
    ensures RevisionOf(Apply(s, Decide(s, op).record), v) == RevisionOf(s, v) + 1
  {
    ApplyMovesRevision(s, Decide(s, op).record, v);
  }

  lemma CommitNeverLowers(s: State, op: Op, v: Versioned)
    requires KeepsCounters(op) && FiledByName(s) && Decide(s, op).Commit?
    ensures RevisionOf(Apply(s, Decide(s, op).record), v) >= RevisionOf(s, v)
  {
    ApplyMovesRevision(s, Decide(s, op).record, v);
  }

  lemma CommitFilesTasks(s: State, op: Op)
    requires KeepsCounters(op) && FiledByName(s) && Decide(s, op).Commit?
    ensures TasksByName(Apply(s, Decide(s, op).record))
  {
    ApplyByParts(s, Decide(s, op).record);
  }

  lemma CommitFilesWorkflows(s: State, op: Op)
    requires KeepsCounters(op) && FiledByName(s) && Decide(s, op).Commit?
    ensures WorkflowsByName(Apply(s, Decide(s, op).record))
  {
  }

  ghost predicate Sound(sys: System) {
    FiledByName(sys.mem) && Refines(Replay(sys.file), sys.mem, sys.pruned)
  }

  lemma OneOpKeeps(sys: System, op: Op, v: Versioned)
    requires Sound(sys) && KeepsCounters(op)
    ensures Sound(Exec(sys, op)) && RevisionOf(Exec(sys, op).mem, v) >= RevisionOf(sys.mem, v)
  {
    ExecRefines(sys, op);
    if !op.Reopen? && !op.PruneRevocations? && Decide(sys.mem, op).Commit? {
      CommitFilesTasks(sys.mem, op);
      CommitFilesWorkflows(sys.mem, op);
      CommitNeverLowers(sys.mem, op, v);
    }
  }

  lemma {:induction false} RunKeeps(sys: System, ops: seq<Op>, v: Versioned)
    requires Sound(sys) && WellKept(ops)
    ensures Sound(Run(sys, ops)) && RevisionOf(Run(sys, ops).mem, v) >= RevisionOf(sys.mem, v)
  {
    if ops != [] {
      var n := |ops| - 1;
      RunKeeps(sys, ops[..n], v);
      OneOpKeeps(Run(sys, ops[..n]), ops[n], v);
    }
  }

  /**
   No update is lost: of all updates of one Task, workflow or worker control that expect the same revision, at most
   one is committed, whatever runs between them, reopenings included.
   */
  lemma NoUpdateIsLost(before: seq<Op>, first: Op, between: seq<Op>, second: Op, v: Versioned, expected: nat)
    requires WellKept(before + [first] + between) && expected != 0
    requires Expects(first, v, expected) && Decide(Run(INITIAL, before).mem, first).Commit?
    requires Expects(second, v, expected)
    ensures var later := Run(INITIAL, before + [first] + between);
            Decide(later.mem, second).Refuse? && Exec(later, second) == later
  {
    var sys := Run(INITIAL, before);
    Around(before, first, between, v);
    if RevisionOf(sys.mem, v) != expected {
      ConditionIsChecked(sys, first, v, expected);
    }
    CommitCounts(sys.mem, first, v, expected);
    RunKeeps(Exec(sys, first), between, v);
    ConditionIsChecked(Run(Exec(sys, first), between), second, v, expected);
  }

  // Keys

  /** The keys under which changes of a Task or workflow were committed. */
  function KeysOf(s: State, v: Versioned): set<string> {
    match v
    case TaskAt(k) => Get(s.work.dedupKeys, k, {})
    case WorkflowAt(k) => Get(s.flows.dedupKeys, k, {})
    case ControlAt(_) => {}
  }

  /** The operation is a change of that Task or workflow under the key. */
  predicate UsesKey(op: Op, v: Versioned, dedup: string) {
    match v
    case TaskAt(k) => op.ApplyTask? && op.key == k && op.dedup == dedup
    case WorkflowAt(k) => op.ApplyWorkflow? && op.key == k && op.dedup == dedup
    case ControlAt(_) => false
  }

  lemma UsedKeyIsKept(sys: System, op: Op, v: Versioned, dedup: string)
    requires UsesKey(op, v, dedup) && dedup != "" && dedup in KeysOf(sys.mem, v)
    ensures !Decide(sys.mem, op).Commit? && Exec(sys, op) == sys
  {
  }

  lemma ApplyMovesKeys(s: State, r: Record, v: Versioned)
    ensures KeysOf(Apply(s, r), v) ==
            match v
            case TaskAt(k) =>
              KeysOf(s, v) + if r.TaskRecord? && r.task.ResourceKey() == k then {r.event.dedupKey} else {}
            case WorkflowAt(k) =>
              KeysOf(s, v) +
              if r.WorkflowRecord? && r.workflow.ResourceKey() == k then {r.workflowEvent.dedupKey} else {}
            case ControlAt(_) => {}
  {
    ApplyByParts(s, r);
  }

  lemma CommitRecordsKey(s: State, op: Op, v: Versioned, dedup: string)
    requires UsesKey(op, v, dedup) && dedup != "" && KeepsCounters(op) && FiledByName(s) && Decide(s, op).Commit?
    ensures dedup in KeysOf(Apply(s, Decide(s, op).record), v)
  {
    ApplyMovesKeys(s, Decide(s, op).record, v);
  }

  lemma OneOpKeepsKeys(sys: System, op: Op, v: Versioned)
    requires Refines(Replay(sys.file), sys.mem, sys.pruned)
    ensures KeysOf(sys.mem, v) <= KeysOf(Exec(sys, op).mem, v)
  {
    if !op.Reopen? && !op.PruneRevocations? && Decide(sys.mem, op).Commit? {
      ApplyMovesKeys(sys.mem, Decide(sys.mem, op).record, v);
    }
  }

  lemma {:induction false} RunKeepsKeys(sys: System, ops: seq<Op>, v: Versioned)
    requires Sound(sys) && WellKept(ops)
    ensures KeysOf(sys.mem, v) <= KeysOf(Run(sys, ops).mem, v)
  {
    if ops != [] {
      var n := |ops| - 1;
      RunKeepsKeys(sys, ops[..n], v);
      RunKeeps(sys, ops[..n], v);
      OneOpKeepsKeys(Run(sys, ops[..n]), ops[n], v);
    }
  }

  /** A run, one operation, and another run. */
  lemma Around(before: seq<Op>, first: Op, between: seq<Op>, v: Versioned)
    requires WellKept(before + [first] + between)
    ensures Sound(Run(INITIAL, before)) && KeepsCounters(first) && WellKept(between)
    ensures Sound(Exec(Run(INITIAL, before), first))
    ensures Run(INITIAL, before + [first] + between) == Run(Exec(Run(INITIAL, before), first), between)
  {
    var all := before + [first] + between;
    assert forall op :: op in before ==> op in all;
    assert first in all && forall op :: op in between ==> op in all;
    RunKeeps(INITIAL, before, v);
    OneOpKeeps(Run(INITIAL, before), first, v);
    RunAppend(INITIAL, before, first);
    RunConcat(INITIAL, before + [first], between);
  }

  /** Once a change of a Task or workflow was committed under a key, no other under that key ever changes anything. */
  lemma KeyIsUsedOnce(before: seq<Op>, first: Op, between: seq<Op>, second: Op, v: Versioned, dedup: string)
    requires WellKept(before + [first] + between) && dedup != ""
    requires UsesKey(first, v, dedup) && Decide(Run(INITIAL, before).mem, first).Commit?
    requires UsesKey(second, v, dedup)
    ensures var later := Run(INITIAL, before + [first] + between);
            !Decide(later.mem, second).Commit? && Exec(later, second) == later
  {
    var sys := Run(INITIAL, before);
    Around(before, first, between, v);
    CommitRecordsKey(sys.mem, first, v, dedup);
    RunKeepsKeys(Exec(sys, first), between, v);
    UsedKeyIsKept(Run(Exec(sys, first), between), second, v, dedup);
  }

  // Revocations

  /** A revocation that says which token it revokes, and from when until when. */
  predicate Complete(r: TokenRevocation) {
    r.issuer != "" && r.tokenId != "" && r.tenantId != "" && r.revokedAt != ZERO_TIME && r.expiresAt != ZERO_TIME
  }

  /** The last complete revocation of the token. */
  function LastRevocation(ops: seq<Op>, issuer: string, tokenId: string, tenant: string): Option<TokenRevocation> {
    if ops == [] then None
    else
      var last := ops[|ops| - 1];
      if last.RevokeToken? && Complete(last.revocation) && last.revocation.issuer == issuer &&
         last.revocation.tokenId == tokenId && last.revocation.tenantId == tenant then Some(last.revocation)
      else LastRevocation(ops[..|ops| - 1], issuer, tokenId, tenant)
  }

  lemma RevocationsAfterApply(s: State, r: Record)
    ensures Apply(s, r).revocations ==
            if r.RevocationRecord? then s.revocations[RevocationKeyOf(r.revocation) := r.revocation] else s.revocations
  {
    ApplyByParts(s, r);
  }

  lemma {:induction false} FileHasLastRevocation(ops: seq<Op>, issuer: string, tokenId: string, tenant: string)
    ensures var key := RevocationKey(issuer, tokenId, tenant);
            var filed := Replay(Run(INITIAL, ops).file).revocations;
            LastRevocation(ops, issuer, tokenId, tenant) == if key in filed then Some(filed[key]) else None
  {
    if ops != [] {
      var n := |ops| - 1;
      FileHasLastRevocation(ops[..n], issuer, tokenId, tenant);
      OneMoreFiled(Run(INITIAL, ops[..n]), ops[n]);
    }
  }

  lemma DecidesRevocation(s: State, op: Op)
    requires Decide(s, op).Commit?
    ensures var r := Decide(s, op).record;
            (r.RevocationRecord? <==> op.RevokeToken?) && (op.RevokeToken? ==> r.revocation == op.revocation)
    ensures op.RevokeToken? ==> Complete(op.revocation)
  {
  }

  lemma CommitFiled(sys: System, r: Record)
    ensures Replay(sys.file + [Encode(r)]).revocations ==
            if r.RevocationRecord? then Replay(sys.file).revocations[RevocationKeyOf(r.revocation) := r.revocation]
            else Replay(sys.file).revocations
  {
    ReplayAppend(sys.file, Encode(r));
    RevocationsAfterApply(Replay(sys.file), Encode(r));
  }

  lemma OneMoreFiled(sys: System, op: Op)
    ensures Replay(Exec(sys, op).file).revocations ==
            if op.RevokeToken? && Complete(op.revocation)
            then Replay(sys.file).revocations[RevocationKeyOf(op.revocation) := op.revocation]
            else Replay(sys.file).revocations
  {
    if !op.Reopen? && !op.PruneRevocations? && Decide(sys.mem, op).Commit? {
      DecidesRevocation(sys.mem, op);
      CommitFiled(sys, Decide(sys.mem, op).record);
    }
  }

  /**
   A token is revoked exactly while the last revocation of it lasts, after every run, whatever was pruned and however
   often the store was reopened.
   */
  lemma TokenIsRevokedIff(ops: seq<Op>, issuer: string, tokenId: string, tenant: string, now: Time)
    requires now >= Run(INITIAL, ops).pruned
    ensures var last := LastRevocation(ops, issuer, tokenId, tenant);
            TokenRevoked(Run(INITIAL, ops).mem.revocations, RevocationKey(issuer, tokenId, tenant), now)
            <==> last.Some? && now < last.value.expiresAt
  {
    FileHasLastRevocation(ops, issuer, tokenId, tenant);
    RevocationsSurviveReplay(ops, RevocationKey(issuer, tokenId, tenant), now);
  }

  /** Pruning drops exactly the revocations that are over. */
  lemma PruningIsExact(sys: System, now: Time, key: RevocationKey)
    ensures var before, after := sys.mem.revocations, Exec(sys, PruneRevocations(now)).mem.revocations;
            (key in after <==> key in before && TokenRevoked(before, key, now)) &&
            (key in after ==> after[key] == before[key])
  {
  }

  // Reservations

  /** A reservation names the object, its tenant, Task, Artifact and digest, and has a size and an expiry. */
  predicate Reservable(o: ArtifactObject) {
    "" !in [o.id, o.tenantId, o.taskId, o.artifactId, o.sha256] && o.sizeBytes >= 0 && o.expiresAt != ZERO_TIME
  }

  /** What makes two objects the same one. */
  function Identity(o: ArtifactObject): (string, string, string, int, string, int) {
    (o.tenantId, o.taskId, o.artifactId, o.partIndex, o.sha256, o.sizeBytes)
  }

  /** A reservation is refused as invalid exactly if something is missing from it. */
  lemma IncompleteReservationIsInvalid(a: ArtifactStore, o: ArtifactObject, quota: ArtifactQuota)
    ensures DecideArtifact(a, ReserveArtifact(o, quota)) == Refuse(Invalid) <==> !Reservable(o)
  {
    var given := [o.id, o.tenantId, o.taskId, o.artifactId, o.sha256];
    assert given[0] in given && given[1] in given && given[2] in given && given[3] in given && given[4] in given;
  }

  /** A reservation that can be made: complete, and for a new object or the same one whose last ingest failed. */
  predicate Admits(a: ArtifactStore, o: ArtifactObject) {
    Reservable(o) &&
    (o.ResourceKey() in a.objects ==>
       Identity(a.objects[o.ResourceKey()]) == Identity(o) && a.objects[o.ResourceKey()].status == FailedObject)
  }

  /** What the tenant's charged objects come to. */
  ghost function BytesCharged(a: ArtifactStore, tenant: string): int {
    Total(a.objects, ByteWeight(tenant))
  }

  ghost function ObjectsCharged(a: ArtifactStore, tenant: string): int {
    Total(a.objects, CountWeight(tenant))
  }

  ghost predicate FitsQuota(a: ArtifactStore, o: ArtifactObject, quota: ArtifactQuota) {
    (quota.maxBytes <= 0 || BytesCharged(a, o.tenantId) + o.sizeBytes <= quota.maxBytes) &&
    (quota.maxObjects <= 0 || ObjectsCharged(a, o.tenantId) + 1 <= quota.maxObjects)
  }

  /**
   After every run, a reservation that can be made is refused exactly if the tenant's charged objects and the new one
   would exceed the quota, and otherwise leaves the object PENDING and unscanned, with nothing stored for it yet.
   */
  lemma ReservationFitsIff(ops: seq<Op>, o: ArtifactObject, quota: ArtifactQuota)
    requires Admits(Run(INITIAL, ops).mem.artifacts, o)
    ensures var a := Run(INITIAL, ops).mem.artifacts;
            var d := DecideArtifact(a, ReserveArtifact(o, quota));
            if FitsQuota(a, o, quota) then
              d.Commit? && d.record.ArtifactRecord? && d.record.obj.Some? &&
              var reserved := d.record.obj.value;
              reserved.ResourceKey() == o.ResourceKey() && Identity(reserved) == Identity(o) &&
              reserved.status == Pending && reserved.scanStatus == NotScanned && reserved.storageKey == "" &&
              reserved.failureCode == "" && reserved.deletedAt == None && reserved.expiresAt == o.expiresAt
            else d == Refuse(QuotaExceeded)
  {
    UsageIsTheSumOfChargedObjects(ops);
    assert Balanced(Run(INITIAL, ops).mem.artifacts, o.tenantId);
  }

  /** Reserving a live object again is accepted without a change if it is the same, and refused if it is not. */
  lemma LiveReservationIsReplayed(a: ArtifactStore, o: ArtifactObject, quota: ArtifactQuota)
    requires Reservable(o) && o.ResourceKey() in a.objects
    requires a.objects[o.ResourceKey()].status != FailedObject
    ensures DecideArtifact(a, ReserveArtifact(o, quota)) ==
            if Identity(a.objects[o.ResourceKey()]) == Identity(o) then Keep else Refuse(Conflict)
  {
  }

  // Queues

  /** An item that says whose it is. */
  predicate IsComplete(item: InboxItem) {
    item.id != "" && item.tenantId != "" && item.taskId != "" && item.dedupKey != ""
  }

  /** The items' keys are filed, each under one item. */
  ghost predicate KeysAreFiled(i: InboxStore) {
    (forall id :: id in i.items ==>
       InboxDedupKey(i.items[id]) in i.dedup && i.dedup[InboxDedupKey(i.items[id])] == id) &&
    forall k :: k in i.dedup ==> i.dedup[k] in i.items && InboxDedupKey(i.items[i.dedup[k]]) == k
  }

  /** New items get new IDs. */
  ghost predicate NewIds(ops: seq<Op>) {
    ops == [] ||
    (NewIds(ops[..|ops| - 1]) &&
     var op := ops[|ops| - 1];
     op.InboxCall? && op.inbox.EnqueueInbox? ==>
       op.inbox.item.id !in Run(INITIAL, ops[..|ops| - 1]).mem.inbox.items)
  }

  lemma InboxOpKeepsFiled(i: InboxStore, op: InboxOp)
    requires KeysAreFiled(i) && DecideInbox(i, op).Commit? && (op.EnqueueInbox? ==> op.item.id !in i.items)
    ensures KeysAreFiled(InboxAfter(i, DecideInbox(i, op).record))
  {
  }

  lemma {:induction false} KeysStayFiled(ops: seq<Op>)
    requires NewIds(ops)
    ensures KeysAreFiled(Run(INITIAL, ops).mem.inbox)
  {
    if ops != [] {
      var n := |ops| - 1;
      var sys, op := Run(INITIAL, ops[..n]), ops[n];
      KeysStayFiled(ops[..n]);
      ReplayRestoresMemory(ops[..n]);
      InboxAfterExec(sys, op);
      if op.InboxCall? && DecideInbox(sys.mem.inbox, op.inbox).Commit? {
        InboxOpKeepsFiled(sys.mem.inbox, op.inbox);
      }
    }
  }

  /**
   After every run, a complete item with a new ID is queued exactly if no item of its Task has its key yet; otherwise
   the call is accepted and nothing changes. So one push is queued once, however often it is delivered.
   */
  lemma QueuedOncePerKey(ops: seq<Op>, item: InboxItem)
    requires NewIds(ops) && IsComplete(item) && item.id !in Run(INITIAL, ops).mem.inbox.items
    ensures var before, after := Run(INITIAL, ops).mem, Exec(Run(INITIAL, ops), InboxCall(EnqueueInbox(item))).mem;
            var known := exists id :: id in before.inbox.items && before.inbox.items[id].tenantId == item.tenantId &&
                                      before.inbox.items[id].taskId == item.taskId &&
                                      before.inbox.items[id].dedupKey == item.dedupKey;
            if known then after == before && DecideInbox(before.inbox, EnqueueInbox(item)) == Keep
            else after.inbox.items == before.inbox.items[item.id := item] && after.inbox.states == before.inbox.states
    ensures forall a, b ::
              var items := Run(INITIAL, ops).mem.inbox.items;
              a in items && b in items && InboxDedupKey(items[a]) == InboxDedupKey(items[b]) ==> a == b
  {
    KeysStayFiled(ops);
    InboxAfterExec(Run(INITIAL, ops), InboxCall(EnqueueInbox(item)));
  }

  /** An outbox item of one's own is queued exactly if it is complete and its key is new. */
  lemma OwnItemIsQueuedIff(sys: System, item: OutboxItem)
    ensures var before, after := sys.mem.outbox, Exec(sys, OutboxCall(EnqueueOutbox(item))).mem.outbox;
            if item.id != "" && item.tenantId != "" && item.taskId != "" && item.dedupKey != "" && item.topic != "" &&
               ItemKey(item.tenantId, item.taskId, item.dedupKey) !in before.dedup
            then
              after.items == before.items[item.id := item] && after.states == before.states &&
              after.dedup == before.dedup[ItemKey(item.tenantId, item.taskId, item.dedupKey) := item.id]
            else after == before
  {
    OutboxAfterExec(sys, OutboxCall(EnqueueOutbox(item)));
  }

  /** The outbox item of an event tells the event, under its ID, key and type. */
  lemma EventIsTold(e: Event)
    ensures var item := FromEvent(e);
            item.id == e.id && item.tenantId == e.tenantId && item.taskId == e.taskId && item.dedupKey == e.dedupKey &&
            item.topic == e.kind && item.payload == EventPayload(e) && item.createdAt == e.createdAt
  {
  }

  // Workers' controls and agents

  /** A control is set exactly if its scope is not blank, it names a mode, and the expected revision is its own. */
  lemma ControlIsSetIff(sys: System, control: WorkerControl, expected: nat, now: Time)
    ensures var before, after := sys.mem, Exec(sys, SetControl(control, expected, now)).mem;
            var revision := RevisionOf(before, ControlAt(control.scope));
            var mode := Text.Upper(Text.Trim(control.mode));
            if Text.Trim(control.scope) != "" && (mode == "RUNNING" || mode == "PAUSED" || mode == "DRAINING") &&
               (expected == 0 || expected == revision)
            then
              after == before.(controls :=
                         before.controls[control.scope :=
                                           WorkerControl(control.scope, mode, revision + 1, now)])
            else after == before
  {
    if Decide(sys.mem, SetControl(control, expected, now)).Commit? {
      ApplyByParts(sys.mem, Decide(sys.mem, SetControl(control, expected, now)).record);
    }
  }

  /** An agent is registered or replaced under its own name. */
  lemma AgentIsPut(sys: System, agent: Agent)
    ensures Exec(sys, PutAgent(agent)).mem ==
            sys.mem.(agents := sys.mem.agents[Key(agent.tenantId, agent.id) := agent])
  {
    ApplyByParts(sys.mem, AgentRecord(agent));
  }

  // Tasks and workflows

  /** A Task is created exactly if there is none of its name; then it has one event, of its own making. */
  lemma TaskIsCreatedIff(sys: System, task: Task, draft: Event, eventId: string)
    requires task.ResourceKey() !in sys.mem.work.events && task.ResourceKey() !in sys.mem.work.dedupKeys
    ensures var key, before := task.ResourceKey(), sys.mem.work;
            var after := Exec(sys, CreateTask(task, draft, eventId)).mem.work;
            if key in before.tasks then after == before
            else
              after.tasks == before.tasks[key := task.(revision := 1, lastSequence := 1)] &&
              |after.events[key]| == 1 && IsTheEvent(after.events[key][0], draft, task, 1, eventId)
  {
    WorkAfterExec(sys, CreateTask(task, draft, eventId));
  }

  /** The event says what the draft says, numbered and filed under the Task. */
  predicate IsTheEvent(e: Event, draft: Event, task: Task, sequence: nat, eventId: string) {
    e.kind == draft.kind && e.source == draft.source && e.state == draft.state && e.artifact == draft.artifact &&
    e.problem == draft.problem && e.observedAt == draft.observedAt && e.createdAt == draft.createdAt &&
    e.id == eventId && e.taskId == task.id && e.tenantId == task.tenantId && e.sequence == sequence
  }

  /** A Task is changed exactly if it exists, the condition holds, the key is new and the change succeeds. */
  lemma TaskIsChangedIff(sys: System, key: Key, expected: nat, dedup: string, mutate: TaskMutator, eventId: string)
    ensures var before, after := sys.mem.work, Exec(sys, ApplyTask(key, expected, dedup, mutate, eventId)).mem.work;
            if key in before.tasks && (expected == 0 || before.tasks[key].revision == expected) &&
               (dedup == "" || dedup !in Get(before.dedupKeys, key, {})) && mutate(before.tasks[key]).Some?
            then
              var (t, draft) := mutate(before.tasks[key]).value;
              var k := t.ResourceKey();
              var n, log := |Get(before.events, k, [])|, Get(after.events, k, []);
              after.tasks == before.tasks[k := t.(revision := t.revision + 1, lastSequence := t.lastSequence + 1)] &&
              |log| == n + 1 && IsTheEvent(log[n], draft, t, t.lastSequence + 1, eventId)
            else after == before
  {
    WorkAfterExec(sys, ApplyTask(key, expected, dedup, mutate, eventId));
  }

  /** A workflow is created exactly if it is named, has steps and there is none of its name. */
  lemma WorkflowIsCreatedIff(sys: System, w: Workflow, draft: WorkflowEvent, eventId: string)
    ensures var before, after := sys.mem.flows, Exec(sys, CreateWorkflow(w, draft, eventId)).mem.flows;
            if w.tenantId != "" && w.id != "" && w.steps != [] && w.ResourceKey() !in before.workflows
            then after.workflows == before.workflows[w.ResourceKey() := w.(revision := 1, lastSequence := 1)]
            else after == before
  {
    if Decide(sys.mem, CreateWorkflow(w, draft, eventId)).Commit? {
      ApplyByParts(sys.mem, Decide(sys.mem, CreateWorkflow(w, draft, eventId)).record);
    }
  }

  /** And it is changed under the same conditions as a Task. */
  lemma WorkflowIsChangedIff(sys: System, key: Key, expected: nat, dedup: string, change: WorkflowMutator,
                             eventId: string)
    ensures var before := sys.mem.flows;
            var after := Exec(sys, ApplyWorkflow(key, expected, dedup, change, eventId)).mem.flows;
            if key in before.workflows && (expected == 0 || before.workflows[key].revision == expected) &&
               (dedup == "" || dedup !in Get(before.dedupKeys, key, {})) && change(before.workflows[key]).Some?
            then
              var (w, draft) := change(before.workflows[key]).value;
              after.workflows ==
                before.workflows[w.ResourceKey() := w.(revision := w.revision + 1, lastSequence := w.lastSequence + 1)]
            else after == before
  {
    var op := ApplyWorkflow(key, expected, dedup, change, eventId);
    if Decide(sys.mem, op).Commit? {
      ApplyByParts(sys.mem, Decide(sys.mem, op).record);
    }
  }

  // Finished and failed ingests

  /** A pending object is failed as told, after every run, and its reservation is given back. */
  lemma PendingIsFailed(ops: seq<Op>, key: Key, code: string, now: Time)
    requires var a := Run(INITIAL, ops).mem.artifacts; key in a.objects && a.objects[key].status == Pending
    ensures var before := Run(INITIAL, ops).mem.artifacts;
            var after := Exec(Run(INITIAL, ops), ArtifactCall(FailArtifact(key, code, now))).mem.artifacts;
            var o := before.objects[key];
            after.objects == before.objects[key := o.(status := FailedObject, failureCode := code, updatedAt := now)] &&
            UsageOf(after, key.tenant).bytes == UsageOf(before, key.tenant).bytes - o.sizeBytes &&
            UsageOf(after, key.tenant).objects == UsageOf(before, key.tenant).objects - 1
  {
    UsageIsTheSumOfChargedObjects(ops);
    ChargedIsCovered(Run(INITIAL, ops).mem.artifacts, key);
    ArtifactsAfterExec(Run(INITIAL, ops), ArtifactCall(FailArtifact(key, code, now)));
  }
}
