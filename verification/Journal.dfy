/**
 The journal store as values (internal/core/store.go): the in-memory maps, the record kinds,
 how one record changes the maps, and replay of a whole journal.
 */
module Journal {
  import opened Wrappers
  import opened Model

  datatype Lease = Lease(owner: string, expiresAt: Time, availableAt: Time, attempt: nat)
  {
    /** Nobody may claim: not yet available, or held and not expired. */
    predicate Blocked(now: Time) {
      availableAt > now || (owner != "" && expiresAt > now)
    }

    function Claimed(claimant: string, now: Time, duration: int): Lease {
      this.(owner := claimant, expiresAt := now + duration, attempt := attempt + 1)
    }

    function Freed(): Lease {
      this.(owner := "", expiresAt := ZERO_TIME)
    }
  }

  const NO_LEASE := Lease("", ZERO_TIME, ZERO_TIME, 0)

  datatype InboxState = InboxState(lease: Lease, acked: bool)
  const NO_INBOX_STATE := InboxState(NO_LEASE, false)

  datatype OutboxState = OutboxState(
    lease: Lease, acked: bool, deadLettered: bool, purged: bool, lastError: string,
    ackedAt: Time, deadLetterAt: Time, purgedAt: Time)
  const NO_OUTBOX_STATE :=
    OutboxState(NO_LEASE, false, false, false, "", ZERO_TIME, ZERO_TIME, ZERO_TIME)

  /** Tasks with their event logs and the deduplication keys of those events. */
  datatype TaskStore = TaskStore(
    tasks: map<Key, Task>, events: map<Key, seq<Event>>, dedupKeys: map<Key, set<string>>)

  datatype InboxStore = InboxStore(
    items: map<string, InboxItem>, dedup: map<ItemKey, string>, states: map<string, InboxState>)

  datatype OutboxStore = OutboxStore(
    items: map<string, OutboxItem>, dedup: map<ItemKey, string>, states: map<string, OutboxState>)

  datatype ArtifactStore = ArtifactStore(
    objects: map<Key, ArtifactObject>, usage: map<string, ArtifactUsage>, leases: map<Key, Lease>)

  datatype WorkflowStore = WorkflowStore(workflows: map<Key, Workflow>, dedupKeys: map<Key, set<string>>)

  type Revocations = map<RevocationKey, TokenRevocation>

  datatype State = State(
    agents: map<Key, Agent>,
    work: TaskStore,
    leases: map<Key, Lease>,
    inbox: InboxStore,
    outbox: OutboxStore,
    revocations: Revocations,
    artifacts: ArtifactStore,
    flows: WorkflowStore,
    controls: map<string, WorkerControl>)

  const EMPTY := State(
    map[], TaskStore(map[], map[], map[]), map[], InboxStore(map[], map[], map[]),
    OutboxStore(map[], map[], map[]), map[], ArtifactStore(map[], map[], map[]),
    WorkflowStore(map[], map[]), map[])

  /** A map read with Go's zero value for a missing key. */
  function Get<K, V>(m: map<K, V>, k: K, zero: V): V {
    if k in m then m[k] else zero
  }

  /** The records the store writes, one constructor for each record kind. */
  datatype Record =
    | AgentRecord(agent: Agent)
    | TaskRecord(task: Task, event: Event, outbox: OutboxItem)
    | LeaseRecord(taskKey: Key, lease: Lease)
    | InboxRecord(inbox: InboxItem)
    | InboxStateRecord(inboxId: string, inboxState: InboxState)
    | OutboxRecord(item: OutboxItem)
    | OutboxStateRecord(outboxId: string, outboxState: OutboxState)
    | RevocationRecord(revocation: TokenRevocation)
    | ArtifactRecord(obj: Option<ArtifactObject>, usage: Option<ArtifactUsage>,
                     objectLease: Option<(Key, Lease)>)
    | ArtifactLeaseRecord(objectKey: Key, deletionLease: Lease)
    | WorkflowRecord(workflow: Workflow, workflowEvent: WorkflowEvent)
    | ControlRecord(control: WorkerControl)

  function InboxDedupKey(item: InboxItem): ItemKey {
    ItemKey(item.tenantId, item.taskId, item.dedupKey)
  }

  function OutboxDedupKey(item: OutboxItem): ItemKey {
    ItemKey(item.tenantId, item.taskId, item.dedupKey)
  }

  function RevocationKeyOf(r: TokenRevocation): RevocationKey {
    RevocationKey(r.issuer, r.tokenId, r.tenantId)
  }

  function AddEvent(w: TaskStore, task: Task, event: Event): TaskStore {
    var key := task.ResourceKey();
    TaskStore(w.tasks[key := task],
              w.events[key := Get(w.events, key, []) + [event]],
              w.dedupKeys[key := Get(w.dedupKeys, key, {}) + {event.dedupKey}])
  }

  function AddOutboxItem(o: OutboxStore, item: OutboxItem): OutboxStore {
    OutboxStore(o.items[item.id := item], o.dedup[OutboxDedupKey(item) := item.id], o.states)
  }

  function AddInboxItem(i: InboxStore, item: InboxItem): InboxStore {
    InboxStore(i.items[item.id := item], i.dedup[InboxDedupKey(item) := item.id], i.states)
  }

  function UpdateArtifacts(a: ArtifactStore, obj: Option<ArtifactObject>, usage: Option<ArtifactUsage>,
                           lease: Option<(Key, Lease)>): ArtifactStore {
    ArtifactStore(
      if obj.Some? then a.objects[obj.value.ResourceKey() := obj.value] else a.objects,
      if usage.Some? then a.usage[usage.value.tenantId := usage.value] else a.usage,
      if lease.Some? then a.leases[lease.value.0 := lease.value.1] else a.leases)
  }

  function ArtifactsAfter(a: ArtifactStore, r: Record): ArtifactStore {
    match r
    case ArtifactRecord(obj, usage, lease) => UpdateArtifacts(a, obj, usage, lease)
    case ArtifactLeaseRecord(key, lease) => a.(leases := a.leases[key := lease])
    case _ => a
  }

  function OutboxAfter(o: OutboxStore, r: Record): OutboxStore {
    match r
    case TaskRecord(_, _, item) => AddOutboxItem(o, item)
    case OutboxRecord(item) => AddOutboxItem(o, item)
    case OutboxStateRecord(id, state) => o.(states := o.states[id := state])
    case _ => o
  }

  function InboxAfter(i: InboxStore, r: Record): InboxStore {
    match r
    case InboxRecord(item) => AddInboxItem(i, item)
    case InboxStateRecord(id, state) => i.(states := i.states[id := state])
    case _ => i
  }

  function AddWorkflowEvent(f: WorkflowStore, workflow: Workflow, event: WorkflowEvent): WorkflowStore {
    var key := workflow.ResourceKey();
    WorkflowStore(f.workflows[key := workflow],
                  f.dedupKeys[key := Get(f.dedupKeys, key, {}) + {event.dedupKey}])
  }

  /** How one record changes the in-memory maps. */
  function Apply(s: State, r: Record): State {
    match r
    case AgentRecord(agent) =>
      s.(agents := s.agents[Key(agent.tenantId, agent.id) := agent])
    case TaskRecord(task, event, _) =>
      s.(work := AddEvent(s.work, task, event), outbox := OutboxAfter(s.outbox, r))
    case LeaseRecord(key, lease) =>
      s.(leases := s.leases[key := lease])
    case InboxRecord(_) => s.(inbox := InboxAfter(s.inbox, r))
    case InboxStateRecord(_, _) => s.(inbox := InboxAfter(s.inbox, r))
    case OutboxRecord(_) => s.(outbox := OutboxAfter(s.outbox, r))
    case OutboxStateRecord(_, _) => s.(outbox := OutboxAfter(s.outbox, r))
    case RevocationRecord(revocation) =>
      s.(revocations := s.revocations[RevocationKeyOf(revocation) := revocation])
    case ArtifactRecord(_, _, _) => s.(artifacts := ArtifactsAfter(s.artifacts, r))
    case ArtifactLeaseRecord(_, _) => s.(artifacts := ArtifactsAfter(s.artifacts, r))
    case WorkflowRecord(workflow, event) =>
      s.(flows := AddWorkflowEvent(s.flows, workflow, event))
    case ControlRecord(control) =>
      s.(controls := s.controls[control.scope := control])
  }

  /** Each part of the state sees only the records of its own kinds. */
  lemma ApplyByParts(s: State, r: Record)
    ensures Apply(s, r).artifacts == ArtifactsAfter(s.artifacts, r)
    ensures Apply(s, r).outbox == OutboxAfter(s.outbox, r)
    ensures Apply(s, r).inbox == InboxAfter(s.inbox, r)
    ensures Apply(s, r).work == if r.TaskRecord? then AddEvent(s.work, r.task, r.event) else s.work
    ensures Apply(s, r).leases == if r.LeaseRecord? then s.leases[r.taskKey := r.lease] else s.leases
  {
  }

  /** An object as its JSON encoding keeps it: the storage key is not serialised. */
  function Unkeyed(obj: ArtifactObject): ArtifactObject {
    obj.(storageKey := "")
  }

  /** A record as it comes back from the file. */
  function Encode(r: Record): Record {
    match r
    case ArtifactRecord(Some(obj), _, _) => r.(obj := Some(Unkeyed(obj)))
    case _ => r
  }

  /** The state OpenJournal builds from a file. */
  function Replay(file: seq<Record>): State {
    if file == [] then EMPTY else Apply(Replay(file[..|file| - 1]), file[|file| - 1])
  }

  lemma ReplayAppend(file: seq<Record>, r: Record)
    ensures Replay(file + [r]) == Apply(Replay(file), r)
  {
    assert (file + [r])[..|file|] == file;
  }

  /** The outbox item committed in the same record as an event. */
  function FromEvent(event: Event): OutboxItem {
    OutboxItem(event.id, event.tenantId, event.taskId, event.dedupKey, event.kind,
               EventPayload(event), event.createdAt)
  }

  function TokenRevoked(revocations: Revocations, key: RevocationKey, now: Time): bool {
    key in revocations && now < revocations[key].expiresAt
  }

  /** The events after a cursor, among the first n. */
  function EventsAfterTo(events: seq<Event>, after: nat, n: nat): seq<Event>
    requires n <= |events|
  {
    if n == 0 then []
    else if events[n - 1].sequence > after then EventsAfterTo(events, after, n - 1) + [events[n - 1]]
    else EventsAfterTo(events, after, n - 1)
  }

  function EventsAfter(events: seq<Event>, after: nat): seq<Event> {
    EventsAfterTo(events, after, |events|)
  }
}
