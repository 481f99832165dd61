/**
 The journal store as a mutable object (internal/core/store.go): the maps and the file are fields,
 every operation checks, appends one record and applies it. Each method is proved to be one
 operation of JournalOps, so every theorem about runs is a theorem about this object.
 */
module JournalStoreImpl {
  import opened Wrappers
  import opened Model
  import opened Journal
  import opened JournalOps
  import Text
  import opened JournalRefinement
  import opened Ordering
  import opened BatchClaims
  import opened LineLimits

  datatype WorkLease = WorkLease(task: Task, owner: string, expiresAt: Time, attempt: nat)
  datatype InboxLease = InboxLease(item: InboxItem, owner: string, expiresAt: Time, attempt: nat)
  datatype OutboxLease = OutboxLease(item: OutboxItem, owner: string, expiresAt: Time, attempt: nat)
  datatype DeletionLease = DeletionLease(obj: ArtifactObject, owner: string, expiresAt: Time, attempt: nat)

  /** Work is claimed by descending priority, then by key; queue items by creation time, then by ID. */
  function WorkRank(tasks: map<Key, Task>): Key -> SortKey {
    (k: Key) => SortKey(if k in tasks then -tasks[k].priority else 0, k.tenant, k.id)
  }

  function KeyRank(k: Key): SortKey {
    SortKey(0, k.tenant, k.id)
  }

  function IdRank(id: string): SortKey {
    SortKey(0, id, "")
  }

  function CreationRank(items: map<string, OutboxItem>): string -> SortKey {
    (id: string) => SortKey(if id in items then items[id].createdAt else 0, id, "")
  }

  function WorkCandidates(tasks: map<Key, Task>, leases: map<Key, Lease>, now: Time): set<Key> {
    set k | k in tasks && WorkClaimable(tasks, leases, k, now)
  }

  function InboxCandidates(s: InboxStore, now: Time): set<string> {
    set id | id in s.items && InboxClaimable(s, id, now)
  }

  function OutboxCandidates(s: OutboxStore, now: Time): set<string> {
    set id | id in s.items && OutboxClaimable(s, id, now)
  }

  function DeletionCandidates(s: ArtifactStore, now: Time): set<Key> {
    set k | k in s.objects && DeletionClaimable(s, k, now)
  }

  /** Who claims, when, and for how long. */
  datatype Claimant = Claimant(owner: string, now: Time, duration: int)
  {
    predicate Valid() { owner != "" && duration > 0 }

    /** The operations of a batch claim. */
    function Works(keys: seq<Key>): seq<Op> {
      seq(|keys|, i requires 0 <= i < |keys| => WorkCall(ClaimWork(keys[i], owner, now, duration)))
    }

    function Inboxes(ids: seq<string>): seq<Op> {
      seq(|ids|, i requires 0 <= i < |ids| => InboxCall(ClaimInbox(ids[i], owner, now, duration)))
    }

    function Outboxes(ids: seq<string>): seq<Op> {
      seq(|ids|, i requires 0 <= i < |ids| => OutboxCall(ClaimOutbox(ids[i], owner, now, duration)))
    }

    function Deletions(keys: seq<Key>): seq<Op> {
      seq(|keys|, i requires 0 <= i < |keys| => ArtifactCall(ClaimExpired(keys[i], owner, now, duration)))
    }

    /** The lease a claim of the key returns. */
    function WorkLeaseFor(tasks: map<Key, Task>, leases: map<Key, Lease>, k: Key): Option<WorkLease> {
      if k !in tasks then None
      else Some(WorkLease(tasks[k], owner, now + duration, Get(leases, k, NO_LEASE).attempt + 1))
    }

    function InboxLeaseFor(s: InboxStore, id: string): Option<InboxLease> {
      if id !in s.items then None
      else Some(InboxLease(s.items[id], owner, now + duration, Get(s.states, id, NO_INBOX_STATE).lease.attempt + 1))
    }

    function OutboxLeaseFor(s: OutboxStore, id: string): Option<OutboxLease> {
      if id !in s.items then None
      else Some(OutboxLease(s.items[id], owner, now + duration, Get(s.states, id, NO_OUTBOX_STATE).lease.attempt + 1))
    }

    function DeletionLeaseFor(s: ArtifactStore, k: Key): Option<DeletionLease> {
      if k !in s.objects then None
      else Some(DeletionLease(s.objects[k].(status := Deleting, updatedAt := now), owner, now + duration,
                              Get(s.leases, k, NO_LEASE).attempt + 1))
    }

    function WorkLeases(tasks: map<Key, Task>, leases: map<Key, Lease>): Key -> Option<WorkLease> {
      (k: Key) => WorkLeaseFor(tasks, leases, k)
    }

    function InboxLeases(s: InboxStore): string -> Option<InboxLease> {
      (id: string) => InboxLeaseFor(s, id)
    }

    function OutboxLeases(s: OutboxStore): string -> Option<OutboxLease> {
      (id: string) => OutboxLeaseFor(s, id)
    }

    function DeletionLeases(s: ArtifactStore): Key -> Option<DeletionLease> {
      (k: Key) => DeletionLeaseFor(s, k)
    }
  }

  // What a claim of one key leaves of the others

  predicate SameWork(a: map<Key, Lease>, b: map<Key, Lease>, k: Key) {
    Get(b, k, NO_LEASE) == Get(a, k, NO_LEASE)
  }

  predicate SameInbox(a: InboxStore, b: InboxStore, id: string) {
    b.items == a.items && Get(b.states, id, NO_INBOX_STATE) == Get(a.states, id, NO_INBOX_STATE)
  }

  predicate SameOutbox(a: OutboxStore, b: OutboxStore, id: string) {
    b.items == a.items && Get(b.states, id, NO_OUTBOX_STATE) == Get(a.states, id, NO_OUTBOX_STATE)
  }

  predicate SameObject(a: ArtifactStore, b: ArtifactStore, k: Key) {
    (k in b.objects <==> k in a.objects) && (k in a.objects ==> b.objects[k] == a.objects[k]) &&
    Get(b.leases, k, NO_LEASE) == Get(a.leases, k, NO_LEASE)
  }

  // How far a batch has come

  function WorkSame(start: map<Key, Lease>, current: map<Key, Lease>): Key -> bool {
    (k: Key) => SameWork(start, current, k)
  }

  function InboxSame(start: InboxStore, current: InboxStore): string -> bool {
    (id: string) => SameInbox(start, current, id)
  }

  function OutboxSame(start: OutboxStore, current: OutboxStore): string -> bool {
    (id: string) => SameOutbox(start, current, id)
  }

  function ObjectSame(start: ArtifactStore, current: ArtifactStore): Key -> bool {
    (k: Key) => SameObject(start, current, k)
  }

  ghost predicate WorkPart(t: map<Key, Task>, start: map<Key, Lease>, current: map<Key, Lease>, keys: seq<Key>,
                           c: Claimant, claimed: seq<WorkLease>) {
    LeasedSoFar(keys, WorkSame(start, current), c.WorkLeases(t, start), claimed)
  }

  lemma WorkPartStep(t: map<Key, Task>, start: map<Key, Lease>, before: map<Key, Lease>, after: map<Key, Lease>,
                     keys: seq<Key>, c: Claimant, claimed: seq<WorkLease>, lease: WorkLease)
    requires |claimed| < |keys| && Distinct(keys) && WorkPart(t, start, before, keys, c, claimed)
    requires forall k :: k != keys[|claimed|] ==> SameWork(before, after, k)
    requires c.WorkLeaseFor(t, before, keys[|claimed|]) == Some(lease)
    ensures WorkPart(t, start, after, keys, c, claimed + [lease])
  {
    assert SameWork(start, before, keys[|claimed|]);
    assert c.WorkLeaseFor(t, start, keys[|claimed|]) == Some(lease);
    forall k | k != keys[|claimed|] && WorkSame(start, before)(k) ensures WorkSame(start, after)(k) {
      assert SameWork(start, before, k) && SameWork(before, after, k);
    }
    OneMoreLease(keys, WorkSame(start, before), WorkSame(start, after),
                 c.WorkLeases(t, start), claimed, lease);
  }

  ghost predicate InboxPart(start: InboxStore, current: InboxStore, keys: seq<string>, c: Claimant,
                            claimed: seq<InboxLease>) {
    LeasedSoFar(keys, InboxSame(start, current), c.InboxLeases(start), claimed)
  }

  lemma InboxPartStep(start: InboxStore, before: InboxStore, after: InboxStore, keys: seq<string>, c: Claimant,
                      claimed: seq<InboxLease>, lease: InboxLease)
    requires |claimed| < |keys| && Distinct(keys) && InboxPart(start, before, keys, c, claimed)
    requires forall k :: k != keys[|claimed|] ==> SameInbox(before, after, k)
    requires c.InboxLeaseFor(before, keys[|claimed|]) == Some(lease)
    ensures InboxPart(start, after, keys, c, claimed + [lease])
  {
    assert SameInbox(start, before, keys[|claimed|]);
    assert c.InboxLeaseFor(start, keys[|claimed|]) == Some(lease);
    forall k | k != keys[|claimed|] && InboxSame(start, before)(k) ensures InboxSame(start, after)(k) {
      assert SameInbox(start, before, k) && SameInbox(before, after, k);
    }
    OneMoreLease(keys, InboxSame(start, before), InboxSame(start, after),
                 c.InboxLeases(start), claimed, lease);
  }

  ghost predicate OutboxPart(start: OutboxStore, current: OutboxStore, keys: seq<string>, c: Claimant,
                             claimed: seq<OutboxLease>) {
    LeasedSoFar(keys, OutboxSame(start, current), c.OutboxLeases(start), claimed)
  }

  lemma OutboxPartStep(start: OutboxStore, before: OutboxStore, after: OutboxStore, keys: seq<string>, c: Claimant,
                       claimed: seq<OutboxLease>, lease: OutboxLease)
    requires |claimed| < |keys| && Distinct(keys) && OutboxPart(start, before, keys, c, claimed)
    requires forall k :: k != keys[|claimed|] ==> SameOutbox(before, after, k)
    requires c.OutboxLeaseFor(before, keys[|claimed|]) == Some(lease)
    ensures OutboxPart(start, after, keys, c, claimed + [lease])
  {
    assert SameOutbox(start, before, keys[|claimed|]);
    assert c.OutboxLeaseFor(start, keys[|claimed|]) == Some(lease);
    forall k | k != keys[|claimed|] && OutboxSame(start, before)(k) ensures OutboxSame(start, after)(k) {
      assert SameOutbox(start, before, k) && SameOutbox(before, after, k);
    }
    OneMoreLease(keys, OutboxSame(start, before), OutboxSame(start, after),
                 c.OutboxLeases(start), claimed, lease);
  }

  ghost predicate ArtifactPart(start: ArtifactStore, current: ArtifactStore, keys: seq<Key>, c: Claimant,
                               claimed: seq<DeletionLease>) {
    KeyedObjects(current) &&
    LeasedSoFar(keys, ObjectSame(start, current), c.DeletionLeases(start), claimed)
  }

  lemma ArtifactPartStep(start: ArtifactStore, before: ArtifactStore, after: ArtifactStore, keys: seq<Key>, c: Claimant,
                         claimed: seq<DeletionLease>, lease: DeletionLease)
    requires |claimed| < |keys| && Distinct(keys) && ArtifactPart(start, before, keys, c, claimed) &&
             KeyedObjects(after)
    requires forall k :: k != keys[|claimed|] ==> SameObject(before, after, k)
    requires c.DeletionLeaseFor(before, keys[|claimed|]) == Some(lease)
    ensures ArtifactPart(start, after, keys, c, claimed + [lease])
  {
    assert SameObject(start, before, keys[|claimed|]);
    assert c.DeletionLeaseFor(start, keys[|claimed|]) == Some(lease);
    forall k | k != keys[|claimed|] && ObjectSame(start, before)(k) ensures ObjectSame(start, after)(k) {
      assert SameObject(start, before, k) && SameObject(before, after, k);
    }
    OneMoreLease(keys, ObjectSame(start, before), ObjectSame(start, after),
                 c.DeletionLeases(start), claimed, lease);
  }

  ghost predicate KeyedObjects(s: ArtifactStore) {
    forall k :: k in s.objects ==> s.objects[k].ResourceKey() == k
  }

  lemma ClaimChangesOne(s: ArtifactStore, obj: ArtifactObject, lease: Lease)
    requires KeyedObjects(s)
    ensures var next := UpdateArtifacts(s, Some(obj), None, Some((obj.ResourceKey(), lease)));
            KeyedObjects(next) && forall k :: k != obj.ResourceKey() ==> SameObject(s, next, k)
  {
  }

  /** What the store decides for a claimable object, in terms of the lease it hands out. */
  lemma ClaimIsDecided(mem: State, key: Key, c: Claimant)
    requires c.Valid() && DeletionClaimable(mem.artifacts, key, c.now) && KeyedObjects(mem.artifacts)
    ensures var lease := c.DeletionLeaseFor(mem.artifacts, key).value;
            var state := Get(mem.artifacts.leases, key, NO_LEASE).Claimed(c.owner, c.now, c.duration);
            Decide(mem, ArtifactCall(ClaimExpired(key, c.owner, c.now, c.duration))) ==
              Commit(ArtifactRecord(Some(lease.obj), None, Some((key, state)))) &&
            lease.obj.ResourceKey() == key && lease.expiresAt == state.expiresAt && lease.attempt == state.attempt
  {
  }

  function PurgeAll(tenant: string, ids: seq<string>, before: Time, now: Time): seq<Op> {
    seq(|ids|, i requires 0 <= i < |ids| => OutboxCall(PurgeOutbox(tenant, ids[i], before, now)))
  }

  /** Distinct purgeable items, and all of them outside `rest` unless the limit is reached. */
  ghost predicate PurgedIds(o: OutboxStore, tenant: string, ids: seq<string>, rest: set<string>, before: Time,
                            limit: int) {
    (forall i :: 0 <= i < |ids| ==> Purgeable(o, tenant, ids[i], before)) &&
    (forall i, j :: 0 <= i < j < |ids| ==> ids[i] != ids[j]) &&
    (|ids| < limit ==> forall id :: Purgeable(o, tenant, id, before) ==> id in ids || id in rest)
  }

  lemma PurgedIdsStep(o: OutboxStore, tenant: string, ids: seq<string>, rest: set<string>, id: string, before: Time,
                      limit: int)
    requires PurgedIds(o, tenant, ids, rest, before, limit) && id in rest && id !in ids
    ensures |ids| == limit || !Purgeable(o, tenant, id, before) ==>
            PurgedIds(o, tenant, ids, rest - {id}, before, limit)
    ensures Purgeable(o, tenant, id, before) ==> PurgedIds(o, tenant, ids + [id], rest - {id}, before, limit)
  {
  }

  class JournalStore {
    var file: seq<Record>
    var agents: map<Key, Agent>
    var work: TaskStore
    var leases: map<Key, Lease>
    var inbox: InboxStore
    var outbox: OutboxStore
    var revocations: Revocations
    var artifacts: ArtifactStore
    var flows: WorkflowStore
    var controls: map<string, WorkerControl>
    /** The latest time at which memory dropped expired revocations. */
    ghost var pruned: Time

    ghost function Mem(): State
      reads this
    {
      State(agents, work, leases, inbox, outbox, revocations, artifacts, flows, controls)
    }

    ghost function Now(): System
      reads this
    {
      System(Mem(), file, pruned)
    }

    /** The call did exactly what the operation does, and reported its decision. */
    twostate predicate Performed(op: Op, d: Decision)
      reads this
    {
      d == Decide(old(Mem()), op) && Now() == Exec(old(Now()), op)
    }

    /** A store over an existing file, before anything of it is read. */
    constructor (file: seq<Record>, ghost pruned: Time)
      ensures Now() == System(EMPTY, file, pruned)
    {
      this.file, this.pruned := file, pruned;
      agents, leases, revocations, controls := map[], map[], map[], map[];
      work := TaskStore(map[], map[], map[]);
      inbox := InboxStore(map[], map[], map[]);
      outbox := OutboxStore(map[], map[], map[]);
      artifacts := ArtifactStore(map[], map[], map[]);
      flows := WorkflowStore(map[], map[]);
    }

    method ApplyTaskRecord(task: Task, event: Event, item: OutboxItem)
      modifies `work, `outbox
      ensures work == AddEvent(old(work), task, event) && outbox == AddOutboxItem(old(outbox), item)
    {
      var key := task.ResourceKey();
      work := work.(tasks := work.tasks[key := task],
                    events := work.events[key := Get(work.events, key, []) + [event]],
                    dedupKeys := work.dedupKeys[key := Get(work.dedupKeys, key, {}) + {event.dedupKey}]);
      outbox := outbox.(items := outbox.items[item.id := item],
                        dedup := outbox.dedup[OutboxDedupKey(item) := item.id]);
    }

    method ApplyInboxRecord(item: InboxItem)
      modifies `inbox
      ensures inbox == AddInboxItem(old(inbox), item)
    {
      inbox := inbox.(items := inbox.items[item.id := item], dedup := inbox.dedup[InboxDedupKey(item) := item.id]);
    }

    method ApplyOutboxRecord(item: OutboxItem)
      modifies `outbox
      ensures outbox == AddOutboxItem(old(outbox), item)
    {
      outbox := outbox.(items := outbox.items[item.id := item], dedup := outbox.dedup[OutboxDedupKey(item) := item.id]);
    }

    method ApplyWorkflowRecord(workflow: Workflow, event: WorkflowEvent)
      modifies `flows
      ensures flows == AddWorkflowEvent(old(flows), workflow, event)
    {
      var key := workflow.ResourceKey();
      flows := flows.(workflows := flows.workflows[key := workflow],
                      dedupKeys := flows.dedupKeys[key := Get(flows.dedupKeys, key, {}) + {event.dedupKey}]);
    }

    method ApplyArtifactRecord(obj: Option<ArtifactObject>, usage: Option<ArtifactUsage>, lease: Option<(Key, Lease)>)
      modifies `artifacts
      ensures artifacts == UpdateArtifacts(old(artifacts), obj, usage, lease)
    {
      if obj.Some? {
        artifacts := artifacts.(objects := artifacts.objects[obj.value.ResourceKey() := obj.value]);
      }
      if usage.Some? {
        artifacts := artifacts.(usage := artifacts.usage[usage.value.tenantId := usage.value]);
      }
      if lease.Some? {
        artifacts := artifacts.(leases := artifacts.leases[lease.value.0 := lease.value.1]);
      }
    }

    method ApplyRecord(r: Record)
      modifies this
      ensures Mem() == Apply(old(Mem()), r) && file == old(file) && pruned == old(pruned)
    {
      match r {
        case AgentRecord(agent) =>
          agents := agents[Key(agent.tenantId, agent.id) := agent];
        case TaskRecord(task, event, item) =>
          ApplyTaskRecord(task, event, item);
        case LeaseRecord(key, lease) =>
          leases := leases[key := lease];
        case InboxRecord(item) =>
          ApplyInboxRecord(item);
        case InboxStateRecord(id, state) =>
          inbox := inbox.(states := inbox.states[id := state]);
        case OutboxRecord(item) =>
          ApplyOutboxRecord(item);
        case OutboxStateRecord(id, state) =>
          outbox := outbox.(states := outbox.states[id := state]);
        case RevocationRecord(revocation) =>
          revocations := revocations[RevocationKeyOf(revocation) := revocation];
        case ArtifactRecord(obj, usage, lease) =>
          ApplyArtifactRecord(obj, usage, lease);
        case ArtifactLeaseRecord(key, lease) =>
          artifacts := artifacts.(leases := artifacts.leases[key := lease]);
        case WorkflowRecord(workflow, event) =>
          ApplyWorkflowRecord(workflow, event);
        case ControlRecord(control) =>
          controls := controls[control.scope := control];
      }
    }

    /** Append to the file, then apply: the only way memory and file change together. */
    method Write(r: Record)
      modifies this
      ensures Now() == System(Apply(old(Mem()), r), old(file) + [Encode(r)], old(pruned))
    {
      file := file + [Encode(r)];
      ApplyRecord(r);
    }

    /** Writes the record an operation decided on. */
    method Perform(ghost op: Op, r: Record)
      requires Decide(Mem(), op) == Commit(r) && !op.Reopen? && !op.PruneRevocations?
      modifies this
      ensures Now() == Exec(old(Now()), op)
    {
      Write(r);
    }

    /** Reads the file from its start, up to the first line that is too long. */
    method ReplayFile(size: Record -> nat) returns (ok: bool)
      requires Mem() == EMPTY
      modifies this
      ensures file == old(file) && pruned == old(pruned)
      ensures ok <==> Readable(file, size, JOURNAL_LINE)
      ensures ok ==> Mem() == Replay(file)
    {
      var line := 0;
      while line < |file|
        invariant 0 <= line <= |file| && file == old(file) && pruned == old(pruned)
        invariant Mem() == Replay(file[..line]) && Readable(file[..line], size, JOURNAL_LINE)
      {
        if size(file[line]) > JOURNAL_LINE {
          return false;
        }
        assert file[..line + 1] == file[..line] + [file[line]];
        ReplayAppend(file[..line], file[line]);
        ApplyRecord(file[line]);
        line := line + 1;
      }
      assert file[..line] == file;
      return true;
    }

    /** A copy of the file. */
    method Backup() returns (copy: seq<Record>)
      ensures copy == file
    {
      copy := file;
    }

    method PutAgent(agent: Agent) returns (d: Decision)
      modifies this
      ensures Performed(JournalOps.PutAgent(agent), d)
    {
      d := Commit(AgentRecord(agent));
      Write(d.record);
    }

    method CreateTask(task: Task, draft: Event, eventId: string) returns (d: Decision)
      modifies this
      ensures Performed(JournalOps.CreateTask(task, draft, eventId), d)
    {
      if task.ResourceKey() in work.tasks {
        return Refuse(Conflict);
      }
      var created := task.(revision := 1, lastSequence := 1);
      var event := draft.(id := eventId, taskId := task.id, tenantId := task.tenantId, sequence := 1);
      if event.dedupKey == "" {
        event := event.(dedupKey := "local:" + event.id);
      }
      d := Commit(TaskRecord(created, event, FromEvent(event)));
      Write(d.record);
    }

    method ApplyTaskVersion(key: Key, expected: nat, dedup: string, mutate: TaskMutator, eventId: string)
      returns (d: Decision)
      modifies this
      ensures Performed(ApplyTask(key, expected, dedup, mutate, eventId), d)
    {
      if key !in work.tasks {
        return Refuse(NotFound);
      }
      var current := work.tasks[key];
      if expected != 0 && current.revision != expected {
        return Refuse(RevisionConflict);
      }
      if dedup != "" && key in work.dedupKeys && dedup in work.dedupKeys[key] {
        return Keep;
      }
      var result := mutate(current);
      if result.None? {
        return Refuse(MutatorFailed);
      }
      var (updated, event) := result.value;
      updated := updated.(revision := updated.revision + 1, lastSequence := updated.lastSequence + 1);
      event := event.(id := eventId, taskId := updated.id, tenantId := updated.tenantId,
                      sequence := updated.lastSequence, dedupKey := dedup);
      if event.dedupKey == "" {
        event := event.(dedupKey := "local:" + event.id);
      }
      d := Commit(TaskRecord(updated, event, FromEvent(event)));
      Perform(ApplyTask(key, expected, dedup, mutate, eventId), d.record);
    }

    /** The events after a cursor, in log order. */
    method EventsAfterCursor(key: Key, after: nat) returns (r: Result<seq<Event>, StoreError>)
      ensures r == if key in work.tasks then Ok(EventsAfter(Get(work.events, key, []), after)) else Err(NotFound)
    {
      if key !in work.tasks {
        return Err(NotFound);
      }
      var log := Get(work.events, key, []);
      var result := [];
      var i := 0;
      while i < |log|
        invariant 0 <= i <= |log| && result == EventsAfterTo(log, after, i)
      {
        if log[i].sequence > after {
          result := result + [log[i]];
        }
        i := i + 1;
      }
      return Ok(result);
    }

    /** One round of the claim loop. */
    method ClaimTask(key: Key, c: Claimant) returns (lease: WorkLease)
      requires c.Valid() && WorkClaimable(work.tasks, leases, key, c.now)
      modifies this
      ensures Now() == Exec(old(Now()), WorkCall(ClaimWork(key, c.owner, c.now, c.duration)))
      ensures forall k :: k != key ==> SameWork(old(leases), leases, k)
      ensures work.tasks == old(work.tasks)
      ensures c.WorkLeaseFor(old(work.tasks), old(leases), key) == Some(lease)
    {
      var state := Get(leases, key, NO_LEASE);
      state := state.(owner := c.owner, expiresAt := c.now + c.duration, attempt := state.attempt + 1);
      Perform(WorkCall(ClaimWork(key, c.owner, c.now, c.duration)), LeaseRecord(key, state));
      lease := WorkLease(work.tasks[key], c.owner, state.expiresAt, state.attempt);
    }

    /** The first keys are claimed, and the others are as they were. */
    ghost predicate TasksClaimed(start: System, keys: seq<Key>, c: Claimant, claimed: seq<WorkLease>)
      reads this
    {
      |claimed| <= |keys| && Now() == Run(start, c.Works(keys)[..|claimed|]) &&
      work.tasks == start.mem.work.tasks &&
      WorkPart(work.tasks, start.mem.leases, leases, keys, c, claimed)
    }

    method ClaimNextTask(ghost start: System, keys: seq<Key>, c: Claimant, claimed: seq<WorkLease>)
      returns (more: seq<WorkLease>)
      requires c.Valid() && |claimed| < |keys| && Distinct(keys) && TasksClaimed(start, keys, c, claimed)
      requires WorkClaimable(start.mem.work.tasks, start.mem.leases, keys[|claimed|], c.now)
      modifies this
      ensures |more| == |claimed| + 1 && TasksClaimed(start, keys, c, more)
    {
      var i := |claimed|;
      ghost var ops := c.Works(keys);
      assert ops[..i] + [ops[i]] == ops[..i + 1];
      ghost var before := leases;
      assert SameWork(start.mem.leases, leases, keys[i]);
      var lease := ClaimTask(keys[i], c);
      RunAppend(start, ops[..i], ops[i]);
      more := claimed + [lease];
      WorkPartStep(work.tasks, start.mem.leases, before, leases, keys, c, claimed, lease);
    }

    method ClaimTasks(keys: seq<Key>, c: Claimant) returns (claimed: seq<WorkLease>)
      requires c.Valid() && Distinct(keys)
      requires forall m :: 0 <= m < |keys| ==> WorkClaimable(work.tasks, leases, keys[m], c.now)
      modifies this
      ensures Now() == Run(old(Now()), c.Works(keys))
      ensures Leased(keys, old(c.WorkLeases(work.tasks, leases)), claimed)
    {
      claimed := [];
      while |claimed| < |keys|
        invariant TasksClaimed(old(Now()), keys, c, claimed)
        decreases |keys| - |claimed|
      {
        claimed := ClaimNextTask(old(Now()), keys, c, claimed);
      }
      assert c.Works(keys)[..|keys|] == c.Works(keys);
    }

    method ClaimRecoverable(owner: string, limit: int, now: Time, duration: int)
      returns (ok: bool, keys: seq<Key>, claimed: seq<WorkLease>)
      modifies this
      ensures ok <==> owner != "" && limit > 0 && duration > 0
      ensures !ok ==> Now() == old(Now())
      ensures ok ==> Selection(keys, old(WorkCandidates(work.tasks, leases, now)), old(WorkRank(work.tasks)), limit)
      ensures ok ==> Now() == Run(old(Now()), Claimant(owner, now, duration).Works(keys))
      ensures ok ==> Leased(keys, old(Claimant(owner, now, duration).WorkLeases(work.tasks, leases)), claimed)
    {
      ok, keys, claimed := owner != "" && limit > 0 && duration > 0, [], [];
      if !ok {
        return;
      }
      var rank := WorkRank(work.tasks);
      keys := Select(WorkCandidates(work.tasks, leases, now), rank, limit);
      forall m | 0 <= m < |keys| ensures WorkClaimable(work.tasks, leases, keys[m], now) {
        assert keys[m] in keys;
      }
      forall i, j | 0 <= i < j < |keys| ensures keys[i] != keys[j] {
        SortedIsDistinct(keys, rank, i, j);
      }
      claimed := ClaimTasks(keys, Claimant(owner, now, duration));
    }

    /** One round of the claim loop. */
    method ClaimInboxItem(key: string, c: Claimant) returns (lease: InboxLease)
      requires c.Valid() && InboxClaimable(inbox, key, c.now)
      modifies this
      ensures Now() == Exec(old(Now()), InboxCall(ClaimInbox(key, c.owner, c.now, c.duration)))
      ensures forall k :: k != key ==> SameInbox(old(inbox), inbox, k)
      ensures c.InboxLeaseFor(old(inbox), key) == Some(lease)
    {
      var state := Get(inbox.states, key, NO_INBOX_STATE);
      state := state.(lease := state.lease.(owner := c.owner, expiresAt := c.now + c.duration,
                                            attempt := state.lease.attempt + 1));
      ghost var was, op := Now(), InboxCall(ClaimInbox(key, c.owner, c.now, c.duration));
      InboxAfterExec(was, op);
      Perform(op, InboxStateRecord(key, state));
      lease := InboxLease(inbox.items[key], c.owner, state.lease.expiresAt, state.lease.attempt);
    }

    /** The first keys are claimed, and the others are as they were. */
    ghost predicate InboxClaimed(start: System, keys: seq<string>, c: Claimant, claimed: seq<InboxLease>)
      reads this
    {
      |claimed| <= |keys| && Now() == Run(start, c.Inboxes(keys)[..|claimed|]) &&
      InboxPart(start.mem.inbox, inbox, keys, c, claimed)
    }

    method ClaimNextInboxItem(ghost start: System, keys: seq<string>, c: Claimant, claimed: seq<InboxLease>)
      returns (more: seq<InboxLease>)
      requires c.Valid() && |claimed| < |keys| && Distinct(keys) && InboxClaimed(start, keys, c, claimed)
      requires InboxClaimable(start.mem.inbox, keys[|claimed|], c.now)
      modifies this
      ensures |more| == |claimed| + 1 && InboxClaimed(start, keys, c, more)
    {
      var i := |claimed|;
      ghost var ops := c.Inboxes(keys);
      assert ops[..i] + [ops[i]] == ops[..i + 1];
      ghost var before := inbox;
      assert SameInbox(start.mem.inbox, inbox, keys[i]);
      var lease := ClaimInboxItem(keys[i], c);
      RunAppend(start, ops[..i], ops[i]);
      more := claimed + [lease];
      InboxPartStep(start.mem.inbox, before, inbox, keys, c, claimed, lease);
    }

    method ClaimEachInboxItem(keys: seq<string>, c: Claimant) returns (claimed: seq<InboxLease>)
      requires c.Valid() && Distinct(keys)
      requires forall m :: 0 <= m < |keys| ==> InboxClaimable(inbox, keys[m], c.now)
      modifies this
      ensures Now() == Run(old(Now()), c.Inboxes(keys))
      ensures Leased(keys, old(c.InboxLeases(inbox)), claimed)
    {
      claimed := [];
      while |claimed| < |keys|
        invariant InboxClaimed(old(Now()), keys, c, claimed)
        decreases |keys| - |claimed|
      {
        claimed := ClaimNextInboxItem(old(Now()), keys, c, claimed);
      }
      assert c.Inboxes(keys)[..|keys|] == c.Inboxes(keys);
    }

    method ClaimInboxItems(owner: string, limit: int, now: Time, duration: int)
      returns (ok: bool, keys: seq<string>, claimed: seq<InboxLease>)
      modifies this
      ensures ok <==> owner != "" && limit > 0 && duration > 0
      ensures !ok ==> Now() == old(Now())
      ensures ok ==> Selection(keys, old(InboxCandidates(inbox, now)), IdRank, limit)
      ensures ok ==> Now() == Run(old(Now()), Claimant(owner, now, duration).Inboxes(keys))
      ensures ok ==> Leased(keys, old(Claimant(owner, now, duration).InboxLeases(inbox)), claimed)
    {
      ok, keys, claimed := owner != "" && limit > 0 && duration > 0, [], [];
      if !ok {
        return;
      }
      var rank := IdRank;
      keys := Select(InboxCandidates(inbox, now), rank, limit);
      forall m | 0 <= m < |keys| ensures InboxClaimable(inbox, keys[m], now) {
        assert keys[m] in keys;
      }
      forall i, j | 0 <= i < j < |keys| ensures keys[i] != keys[j] {
        SortedIsDistinct(keys, rank, i, j);
      }
      claimed := ClaimEachInboxItem(keys, Claimant(owner, now, duration));
    }

    /** One round of the claim loop. */
    method ClaimOutboxItem(key: string, c: Claimant) returns (lease: OutboxLease)
      requires c.Valid() && OutboxClaimable(outbox, key, c.now)
      modifies this
      ensures Now() == Exec(old(Now()), OutboxCall(ClaimOutbox(key, c.owner, c.now, c.duration)))
      ensures forall k :: k != key ==> SameOutbox(old(outbox), outbox, k)
      ensures c.OutboxLeaseFor(old(outbox), key) == Some(lease)
    {
      var state := Get(outbox.states, key, NO_OUTBOX_STATE);
      state := state.(lease := state.lease.(owner := c.owner, expiresAt := c.now + c.duration,
                                            attempt := state.lease.attempt + 1));
      ghost var was, op := Now(), OutboxCall(ClaimOutbox(key, c.owner, c.now, c.duration));
      OutboxAfterExec(was, op);
      Perform(op, OutboxStateRecord(key, state));
      lease := OutboxLease(outbox.items[key], c.owner, state.lease.expiresAt, state.lease.attempt);
    }

    /** The first keys are claimed, and the others are as they were. */
    ghost predicate OutboxClaimed(start: System, keys: seq<string>, c: Claimant, claimed: seq<OutboxLease>)
      reads this
    {
      |claimed| <= |keys| && Now() == Run(start, c.Outboxes(keys)[..|claimed|]) &&
      OutboxPart(start.mem.outbox, outbox, keys, c, claimed)
    }

    method ClaimNextOutboxItem(ghost start: System, keys: seq<string>, c: Claimant, claimed: seq<OutboxLease>)
      returns (more: seq<OutboxLease>)
      requires c.Valid() && |claimed| < |keys| && Distinct(keys) && OutboxClaimed(start, keys, c, claimed)
      requires OutboxClaimable(start.mem.outbox, keys[|claimed|], c.now)
      modifies this
      ensures |more| == |claimed| + 1 && OutboxClaimed(start, keys, c, more)
    {
      var i := |claimed|;
      ghost var ops := c.Outboxes(keys);
      assert ops[..i] + [ops[i]] == ops[..i + 1];
      ghost var before := outbox;
      assert SameOutbox(start.mem.outbox, outbox, keys[i]);
      var lease := ClaimOutboxItem(keys[i], c);
      RunAppend(start, ops[..i], ops[i]);
      more := claimed + [lease];
      OutboxPartStep(start.mem.outbox, before, outbox, keys, c, claimed, lease);
    }

    method ClaimEachOutboxItem(keys: seq<string>, c: Claimant) returns (claimed: seq<OutboxLease>)
      requires c.Valid() && Distinct(keys)
      requires forall m :: 0 <= m < |keys| ==> OutboxClaimable(outbox, keys[m], c.now)
      modifies this
      ensures Now() == Run(old(Now()), c.Outboxes(keys))
      ensures Leased(keys, old(c.OutboxLeases(outbox)), claimed)
    {
      claimed := [];
      while |claimed| < |keys|
        invariant OutboxClaimed(old(Now()), keys, c, claimed)
        decreases |keys| - |claimed|
      {
        claimed := ClaimNextOutboxItem(old(Now()), keys, c, claimed);
      }
      assert c.Outboxes(keys)[..|keys|] == c.Outboxes(keys);
    }

    method ClaimOutboxItems(owner: string, limit: int, now: Time, duration: int)
      returns (ok: bool, keys: seq<string>, claimed: seq<OutboxLease>)
      modifies this
      ensures ok <==> owner != "" && limit > 0 && duration > 0
      ensures !ok ==> Now() == old(Now())
      ensures ok ==> Selection(keys, old(OutboxCandidates(outbox, now)), old(CreationRank(outbox.items)), limit)
      ensures ok ==> Now() == Run(old(Now()), Claimant(owner, now, duration).Outboxes(keys))
      ensures ok ==> Leased(keys, old(Claimant(owner, now, duration).OutboxLeases(outbox)), claimed)
    {
      ok, keys, claimed := owner != "" && limit > 0 && duration > 0, [], [];
      if !ok {
        return;
      }
      var rank := CreationRank(outbox.items);
      keys := Select(OutboxCandidates(outbox, now), rank, limit);
      forall m | 0 <= m < |keys| ensures OutboxClaimable(outbox, keys[m], now) {
        assert keys[m] in keys;
      }
      forall i, j | 0 <= i < j < |keys| ensures keys[i] != keys[j] {
        SortedIsDistinct(keys, rank, i, j);
      }
      claimed := ClaimEachOutboxItem(keys, Claimant(owner, now, duration));
    }

    /** One round of the claim loop. */
    method ClaimExpiredArtifact(key: Key, c: Claimant) returns (lease: DeletionLease)
      requires c.Valid() && DeletionClaimable(artifacts, key, c.now) && KeyedObjects(artifacts)
      modifies this
      ensures Now() == Exec(old(Now()), ArtifactCall(ClaimExpired(key, c.owner, c.now, c.duration)))
      ensures KeyedObjects(artifacts) && forall k :: k != key ==> SameObject(old(artifacts), artifacts, k)
      ensures c.DeletionLeaseFor(old(artifacts), key) == Some(lease)
    {
      var state := Get(artifacts.leases, key, NO_LEASE);
      state := state.(owner := c.owner, expiresAt := c.now + c.duration, attempt := state.attempt + 1);
      var obj := artifacts.objects[key].(status := Deleting, updatedAt := c.now);
      lease := DeletionLease(obj, c.owner, state.expiresAt, state.attempt);
      ghost var was, op := Now(), ArtifactCall(ClaimExpired(key, c.owner, c.now, c.duration));
      ClaimIsDecided(Mem(), key, c);
      ArtifactsAfterExec(was, op);
      ClaimChangesOne(artifacts, obj, state);
      Perform(op, ArtifactRecord(Some(obj), None, Some((key, state))));
    }

    /** The first keys are claimed, and the others are as they were. */
    ghost predicate ArtifactsClaimed(start: System, keys: seq<Key>, c: Claimant, claimed: seq<DeletionLease>)
      reads this
    {
      |claimed| <= |keys| && Now() == Run(start, c.Deletions(keys)[..|claimed|]) &&
      ArtifactPart(start.mem.artifacts, artifacts, keys, c, claimed)
    }

    method ClaimNextArtifact(ghost start: System, keys: seq<Key>, c: Claimant, claimed: seq<DeletionLease>)
      returns (more: seq<DeletionLease>)
      requires c.Valid() && |claimed| < |keys| && Distinct(keys) && ArtifactsClaimed(start, keys, c, claimed)
      requires DeletionClaimable(start.mem.artifacts, keys[|claimed|], c.now)
      modifies this
      ensures |more| == |claimed| + 1 && ArtifactsClaimed(start, keys, c, more)
    {
      var i := |claimed|;
      ghost var ops := c.Deletions(keys);
      assert ops[..i] + [ops[i]] == ops[..i + 1];
      ghost var before := artifacts;
      assert SameObject(start.mem.artifacts, artifacts, keys[i]);
      var lease := ClaimExpiredArtifact(keys[i], c);
      RunAppend(start, ops[..i], ops[i]);
      more := claimed + [lease];
      ArtifactPartStep(start.mem.artifacts, before, artifacts, keys, c, claimed, lease);
    }

    method ClaimEachArtifact(keys: seq<Key>, c: Claimant) returns (claimed: seq<DeletionLease>)
      requires c.Valid() && Distinct(keys) && KeyedObjects(artifacts)
      requires forall m :: 0 <= m < |keys| ==> DeletionClaimable(artifacts, keys[m], c.now)
      modifies this
      ensures Now() == Run(old(Now()), c.Deletions(keys))
      ensures Leased(keys, old(c.DeletionLeases(artifacts)), claimed)
    {
      claimed := [];
      while |claimed| < |keys|
        invariant ArtifactsClaimed(old(Now()), keys, c, claimed)
        decreases |keys| - |claimed|
      {
        claimed := ClaimNextArtifact(old(Now()), keys, c, claimed);
      }
      assert c.Deletions(keys)[..|keys|] == c.Deletions(keys);
    }

    method ClaimExpiredArtifacts(owner: string, limit: int, now: Time, duration: int)
      returns (ok: bool, keys: seq<Key>, claimed: seq<DeletionLease>)
      requires KeyedObjects(artifacts)
      modifies this
      ensures ok <==> owner != "" && limit > 0 && duration > 0
      ensures !ok ==> Now() == old(Now())
      ensures ok ==> Selection(keys, old(DeletionCandidates(artifacts, now)), KeyRank, limit)
      ensures ok ==> Now() == Run(old(Now()), Claimant(owner, now, duration).Deletions(keys))
      ensures ok ==> Leased(keys, old(Claimant(owner, now, duration).DeletionLeases(artifacts)), claimed)
    {
      ok, keys, claimed := owner != "" && limit > 0 && duration > 0, [], [];
      if !ok {
        return;
      }
      var rank := KeyRank;
      keys := Select(DeletionCandidates(artifacts, now), rank, limit);
      forall m | 0 <= m < |keys| ensures DeletionClaimable(artifacts, keys[m], now) {
        assert keys[m] in keys;
      }
      forall i, j | 0 <= i < j < |keys| ensures keys[i] != keys[j] {
        SortedIsDistinct(keys, rank, i, j);
      }
      claimed := ClaimEachArtifact(keys, Claimant(owner, now, duration));
    }

    method RenewLease(key: Key, owner: string, now: Time, duration: int) returns (d: Decision)
      modifies this
      ensures Performed(WorkCall(RenewWork(key, owner, now, duration)), d)
    {
      if key !in leases || leases[key].owner != owner || leases[key].expiresAt <= now {
        return Refuse(LeaseLost);
      }
      var state := leases[key].(expiresAt := now + duration);
      d := Commit(LeaseRecord(key, state));
      Write(d.record);
    }

    method ReleaseLease(key: Key, owner: string, availableAt: Time, resetAttempts: bool) returns (d: Decision)
      modifies this
      ensures Performed(WorkCall(ReleaseWork(key, owner, availableAt, resetAttempts)), d)
    {
      if key !in leases || leases[key].owner != owner {
        return Refuse(LeaseLost);
      }
      var state := leases[key].(owner := "", expiresAt := ZERO_TIME, availableAt := availableAt);
      if resetAttempts {
        state := state.(attempt := 0);
      }
      d := Commit(LeaseRecord(key, state));
      Write(d.record);
    }

    method EnqueueInboxItem(item: InboxItem) returns (d: Decision)
      modifies this
      ensures Performed(InboxCall(EnqueueInbox(item)), d)
    {
      if item.id == "" || item.tenantId == "" || item.taskId == "" || item.dedupKey == "" {
        return Refuse(Invalid);
      }
      if InboxDedupKey(item) in inbox.dedup {
        return Keep;
      }
      d := Commit(InboxRecord(item));
      Write(d.record);
    }

    method RenewInboxLease(id: string, owner: string, now: Time, duration: int) returns (d: Decision)
      modifies this
      ensures Performed(InboxCall(RenewInbox(id, owner, now, duration)), d)
    {
      if id !in inbox.states || inbox.states[id].lease.owner != owner ||
         inbox.states[id].lease.expiresAt <= now || inbox.states[id].acked {
        return Refuse(LeaseLost);
      }
      var state := inbox.states[id];
      state := state.(lease := state.lease.(expiresAt := now + duration));
      d := Commit(InboxStateRecord(id, state));
      Write(d.record);
    }

    method AckInboxLease(id: string, owner: string) returns (d: Decision)
      modifies this
      ensures Performed(InboxCall(AckInbox(id, owner)), d)
    {
      if id !in inbox.states || inbox.states[id].lease.owner != owner || inbox.states[id].acked {
        return Refuse(LeaseLost);
      }
      var state := inbox.states[id];
      state := state.(lease := state.lease.(owner := "", expiresAt := ZERO_TIME), acked := true);
      d := Commit(InboxStateRecord(id, state));
      Write(d.record);
    }

    method RetryInboxLease(id: string, owner: string, availableAt: Time) returns (d: Decision)
      modifies this
      ensures Performed(InboxCall(RetryInbox(id, owner, availableAt)), d)
    {
      if id !in inbox.states || inbox.states[id].lease.owner != owner || inbox.states[id].acked {
        return Refuse(LeaseLost);
      }
      var state := inbox.states[id];
      state := state.(lease := state.lease.(owner := "", expiresAt := ZERO_TIME, availableAt := availableAt));
      d := Commit(InboxStateRecord(id, state));
      Write(d.record);
    }

    method EnqueueOutboxItem(item: OutboxItem) returns (d: Decision)
      modifies this
      ensures Performed(OutboxCall(EnqueueOutbox(item)), d)
    {
      if item.id == "" || item.tenantId == "" || item.taskId == "" || item.dedupKey == "" || item.topic == "" {
        return Refuse(Invalid);
      }
      if OutboxDedupKey(item) in outbox.dedup {
        return Keep;
      }
      d := Commit(OutboxRecord(item));
      Write(d.record);
    }

    method RenewOutboxLease(id: string, owner: string, now: Time, duration: int) returns (d: Decision)
      modifies this
      ensures Performed(OutboxCall(RenewOutbox(id, owner, now, duration)), d)
    {
      if id !in outbox.states || outbox.states[id].lease.owner != owner ||
         outbox.states[id].lease.expiresAt <= now || outbox.states[id].acked {
        return Refuse(LeaseLost);
      }
      var state := outbox.states[id];
      state := state.(lease := state.lease.(expiresAt := now + duration));
      d := Commit(OutboxStateRecord(id, state));
      Write(d.record);
    }

    method AckOutboxLease(id: string, owner: string, now: Time) returns (d: Decision)
      modifies this
      ensures Performed(OutboxCall(AckOutbox(id, owner, now)), d)
    {
      if id !in outbox.states || outbox.states[id].lease.owner != owner || outbox.states[id].acked {
        return Refuse(LeaseLost);
      }
      var state := outbox.states[id];
      state := state.(lease := state.lease.(owner := "", expiresAt := ZERO_TIME), acked := true, ackedAt := now);
      d := Commit(OutboxStateRecord(id, state));
      Write(d.record);
    }

    method RetryOutboxLease(id: string, owner: string, availableAt: Time) returns (d: Decision)
      modifies this
      ensures Performed(OutboxCall(RetryOutbox(id, owner, availableAt)), d)
    {
      if id !in outbox.states || outbox.states[id].lease.owner != owner || outbox.states[id].acked ||
         outbox.states[id].deadLettered {
        return Refuse(LeaseLost);
      }
      var state := outbox.states[id];
      state := state.(lease := state.lease.(owner := "", expiresAt := ZERO_TIME, availableAt := availableAt));
      d := Commit(OutboxStateRecord(id, state));
      Write(d.record);
    }

    method DeadLetterOutboxLease(id: string, owner: string, reason: string, now: Time) returns (d: Decision)
      modifies this
      ensures Performed(OutboxCall(DeadLetterOutbox(id, owner, reason, now)), d)
    {
      if id !in outbox.states || outbox.states[id].lease.owner != owner || outbox.states[id].acked ||
         outbox.states[id].deadLettered {
        return Refuse(LeaseLost);
      }
      var state := outbox.states[id];
      state := state.(lease := state.lease.(owner := "", expiresAt := ZERO_TIME), deadLettered := true,
                      lastError := reason, deadLetterAt := now);
      d := Commit(OutboxStateRecord(id, state));
      Write(d.record);
    }

    method ReplayOutboxItem(tenant: string, id: string, now: Time) returns (d: Decision)
      modifies this
      ensures Performed(OutboxCall(ReplayOutbox(tenant, id, now)), d)
    {
      if id !in outbox.items || outbox.items[id].tenantId != tenant {
        return Refuse(NotFound);
      }
      var state := Get(outbox.states, id, NO_OUTBOX_STATE);
      if !state.deadLettered || state.purged {
        return Refuse(Invalid);
      }
      state := state.(deadLettered := false,
                      lease := state.lease.(owner := "", expiresAt := ZERO_TIME, availableAt := now),
                      lastError := "", deadLetterAt := ZERO_TIME);
      d := Commit(OutboxStateRecord(id, state));
      Write(d.record);
    }

    /** One round of the purge loop. */
    method PurgeOutboxItem(ghost start: System, ghost ops: seq<Op>, tenant: string, id: string, before: Time, now: Time)
      requires tenant != "" && Purgeable(outbox, tenant, id, before)
      requires Now() == Run(start, ops)
      modifies this
      ensures Now() == Run(start, ops + [OutboxCall(PurgeOutbox(tenant, id, before, now))])
      ensures outbox.items == old(outbox.items)
      ensures forall i :: i != id ==>
                Get(outbox.states, i, NO_OUTBOX_STATE) == Get(old(outbox.states), i, NO_OUTBOX_STATE)
    {
      var state := Get(outbox.states, id, NO_OUTBOX_STATE);
      state := state.(purged := true, purgedAt := now,
                      lease := state.lease.(owner := "", expiresAt := ZERO_TIME));
      Write(OutboxStateRecord(id, state));
      RunAppend(start, ops, OutboxCall(PurgeOutbox(tenant, id, before, now)));
    }

    /** Purges finished items, in any order, until `limit` are purged or none is left. */
    method PurgeOutboxItems(tenant: string, before: Time, limit: int, now: Time)
      returns (ok: bool, ids: seq<string>)
      modifies this
      ensures ok <==> tenant != "" && limit > 0
      ensures !ok ==> Now() == old(Now())
      ensures ok ==> Now() == Run(old(Now()), PurgeAll(tenant, ids, before, now))
      ensures ok ==> |ids| <= limit
      ensures ok ==> forall i :: 0 <= i < |ids| ==> Purgeable(old(outbox), tenant, ids[i], before)
      ensures ok ==> forall i, j :: 0 <= i < j < |ids| ==> ids[i] != ids[j]
      ensures ok && |ids| < limit ==> forall id :: Purgeable(old(outbox), tenant, id, before) ==> id in ids
    {
      ok, ids := tenant != "" && limit > 0, [];
      if !ok {
        return;
      }
      ghost var start := Now();
      var rest := outbox.items.Keys;
      while rest != {}
        invariant Purged(start, tenant, ids, rest, before, limit, now)
        decreases rest
      {
        var id :| id in rest;
        ids := PurgeNext(start, tenant, ids, rest, id, before, limit, now);
        rest := rest - {id};
      }
    }

    /** The items of `rest` are still to be looked at; of the others, `ids` were purged. */
    ghost predicate Purged(start: System, tenant: string, ids: seq<string>, rest: set<string>, before: Time,
                           limit: int, now: Time)
      reads this
    {
      Now() == Run(start, PurgeAll(tenant, ids, before, now)) &&
      outbox.items == start.mem.outbox.items && |ids| <= limit &&
      (forall id :: id in rest ==>
         id in outbox.items && id !in ids &&
         Get(outbox.states, id, NO_OUTBOX_STATE) == Get(start.mem.outbox.states, id, NO_OUTBOX_STATE)) &&
      PurgedIds(start.mem.outbox, tenant, ids, rest, before, limit)
    }

    /** Looks at one item, and purges it if it is finished and old enough. */
    method PurgeNext(ghost start: System, tenant: string, ids: seq<string>, ghost rest: set<string>, id: string,
                     before: Time, limit: int, now: Time)
      returns (more: seq<string>)
      requires tenant != "" && id in rest && Purged(start, tenant, ids, rest, before, limit, now)
      modifies this
      ensures Purged(start, tenant, more, rest - {id}, before, limit, now)
    {
      var state := Get(outbox.states, id, NO_OUTBOX_STATE);
      var skip := |ids| == limit || outbox.items[id].tenantId != tenant || outbox.items[id].createdAt >= before ||
                  (!state.acked && !state.deadLettered) || state.purged;
      PurgedIdsStep(start.mem.outbox, tenant, ids, rest, id, before, limit);
      if skip {
        return ids;
      }
      assert PurgeAll(tenant, ids + [id], before, now) ==
             PurgeAll(tenant, ids, before, now) + [OutboxCall(PurgeOutbox(tenant, id, before, now))];
      PurgeOutboxItem(start, PurgeAll(tenant, ids, before, now), tenant, id, before, now);
      more := ids + [id];
    }

    method RevokeToken(revocation: TokenRevocation) returns (d: Decision)
      modifies this
      ensures Performed(JournalOps.RevokeToken(revocation), d)
    {
      if revocation.issuer == "" || revocation.tokenId == "" || revocation.tenantId == "" ||
         revocation.revokedAt == ZERO_TIME || revocation.expiresAt == ZERO_TIME {
        return Refuse(Invalid);
      }
      d := Commit(RevocationRecord(revocation));
      Write(d.record);
    }

    method PruneRevocations(now: Time) returns (removed: set<RevocationKey>)
      modifies `revocations, `pruned
      ensures Performed(JournalOps.PruneRevocations(now), Keep)
      ensures removed == old(revocations).Keys - revocations.Keys
    {
      var rest := revocations.Keys;
      removed := {};
      while rest != {}
        invariant rest <= revocations.Keys <= old(revocations).Keys
        invariant removed == old(revocations).Keys - revocations.Keys
        invariant forall k :: k in revocations ==>
                    revocations[k] == old(revocations)[k] && (k in rest || now < revocations[k].expiresAt)
        invariant forall k :: k in removed ==> old(revocations)[k].expiresAt <= now
        decreases rest
        modifies `revocations
      {
        var key :| key in rest;
        rest := rest - {key};
        if revocations[key].expiresAt <= now {
          revocations := revocations - {key};
          removed := removed + {key};
        }
      }
      assert revocations == Prune(old(revocations), now);
      pruned := if now > pruned then now else pruned;
    }

    method Reserve(obj: ArtifactObject, quota: ArtifactQuota) returns (d: Decision)
      modifies this
      ensures Performed(ArtifactCall(ReserveArtifact(obj, quota)), d)
    {
      if !ValidReservation(obj) {
        return Refuse(Invalid);
      }
      var key := obj.ResourceKey();
      if key in artifacts.objects {
        var existing := artifacts.objects[key];
        if !SameIdentity(existing, obj) {
          return Refuse(Conflict);
        }
        if !existing.status.FailedObject? {
          return Keep;
        }
      }
      var usage := Get(artifacts.usage, obj.tenantId, ArtifactUsage("", 0, 0));
      usage := usage.(tenantId := obj.tenantId);
      if (quota.maxBytes > 0 && usage.bytes + obj.sizeBytes > quota.maxBytes) ||
         (quota.maxObjects > 0 && usage.objects + 1 > quota.maxObjects) {
        return Refuse(QuotaExceeded);
      }
      var reserved := obj.(status := Pending, scanStatus := NotScanned, storageKey := "",
                           failureCode := "", deletedAt := None);
      usage := usage.(bytes := usage.bytes + obj.sizeBytes, objects := usage.objects + 1);
      d := Commit(ArtifactRecord(Some(reserved), Some(usage), None));
      Write(d.record);
    }

    method Finalize(key: Key, storageKey: string, mediaType: string, scan: ScanStatus,
                    status: ObjectStatus, now: Time) returns (d: Decision)
      modifies this
      ensures Performed(ArtifactCall(FinalizeArtifact(key, storageKey, mediaType, scan, status, now)), d)
    {
      if storageKey == "" || (!status.Available? && !status.Quarantined?) {
        return Refuse(Invalid);
      }
      if key !in artifacts.objects {
        return Refuse(NotFound);
      }
      var obj := artifacts.objects[key];
      if !obj.status.Pending? {
        if obj.status == status && obj.storageKey == storageKey {
          return Keep;
        }
        return Refuse(Conflict);
      }
      obj := obj.(storageKey := storageKey, detectedMediaType := mediaType, scanStatus := scan,
                  status := status, updatedAt := now);
      d := Commit(ArtifactRecord(Some(obj), None, None));
      Write(d.record);
    }

    method Fail(key: Key, failureCode: string, now: Time) returns (d: Decision)
      modifies this
      ensures Performed(ArtifactCall(FailArtifact(key, failureCode, now)), d)
    {
      if key !in artifacts.objects {
        return Refuse(NotFound);
      }
      var obj := artifacts.objects[key];
      if obj.status.FailedObject? {
        return Keep;
      }
      if !obj.status.Pending? {
        return Refuse(Conflict);
      }
      var usage := Get(artifacts.usage, key.tenant, ArtifactUsage("", 0, 0));
      usage := usage.(bytes := usage.bytes - obj.sizeBytes, objects := usage.objects - 1);
      if usage.bytes < 0 || usage.objects < 0 {
        return Refuse(UsageInvariantViolated);
      }
      obj := obj.(status := FailedObject, failureCode := failureCode, updatedAt := now);
      d := Commit(ArtifactRecord(Some(obj), Some(usage), None));
      Write(d.record);
    }

    method RenewArtifactLease(key: Key, owner: string, now: Time, duration: int) returns (d: Decision)
      modifies this
      ensures Performed(ArtifactCall(RenewArtifact(key, owner, now, duration)), d)
    {
      if key !in artifacts.leases || artifacts.leases[key].owner != owner || artifacts.leases[key].expiresAt <= now {
        return Refuse(LeaseLost);
      }
      d := Commit(ArtifactLeaseRecord(key, artifacts.leases[key].(expiresAt := now + duration)));
      Write(d.record);
    }

    method CompleteArtifactDeletion(key: Key, owner: string, now: Time) returns (d: Decision)
      modifies this
      ensures Performed(ArtifactCall(CompleteDeletion(key, owner, now)), d)
    {
      if key !in artifacts.leases || key !in artifacts.objects || artifacts.leases[key].owner != owner ||
         !artifacts.objects[key].status.Deleting? {
        return Refuse(LeaseLost);
      }
      var obj := artifacts.objects[key];
      var usage := Get(artifacts.usage, obj.tenantId, ArtifactUsage("", 0, 0));
      usage := usage.(bytes := usage.bytes - obj.sizeBytes, objects := usage.objects - 1);
      if usage.bytes < 0 || usage.objects < 0 {
        return Refuse(UsageInvariantViolated);
      }
      obj := obj.(status := Deleted, updatedAt := now, deletedAt := Some(now));
      d := Commit(ArtifactRecord(Some(obj), Some(usage), Some((key, NO_LEASE))));
      Write(d.record);
    }

    method RetryArtifactDeletion(key: Key, owner: string, availableAt: Time) returns (d: Decision)
      modifies this
      ensures Performed(ArtifactCall(RetryDeletion(key, owner, availableAt)), d)
    {
      if key !in artifacts.leases || artifacts.leases[key].owner != owner {
        return Refuse(LeaseLost);
      }
      var state := artifacts.leases[key].(owner := "", expiresAt := ZERO_TIME, availableAt := availableAt);
      d := Commit(ArtifactLeaseRecord(key, state));
      Write(d.record);
    }

    method CreateWorkflow(workflow: Workflow, draft: WorkflowEvent, eventId: string) returns (d: Decision)
      modifies this
      ensures Performed(JournalOps.CreateWorkflow(workflow, draft, eventId), d)
    {
      if workflow.tenantId == "" || workflow.id == "" || |workflow.steps| == 0 {
        return Refuse(Invalid);
      }
      if workflow.ResourceKey() in flows.workflows {
        return Refuse(Conflict);
      }
      var created := workflow.(revision := 1, lastSequence := 1);
      var event := draft.(id := eventId, workflowId := workflow.id, tenantId := workflow.tenantId, sequence := 1);
      if event.dedupKey == "" {
        event := event.(dedupKey := "local:" + event.id);
      }
      d := Commit(WorkflowRecord(created, event));
      Write(d.record);
    }

    method ApplyWorkflowVersion(key: Key, expected: nat, dedup: string, change: WorkflowMutator, eventId: string)
      returns (d: Decision)
      modifies this
      ensures Performed(ApplyWorkflow(key, expected, dedup, change, eventId), d)
    {
      if key !in flows.workflows {
        return Refuse(NotFound);
      }
      var current := flows.workflows[key];
      if expected != 0 && current.revision != expected {
        return Refuse(RevisionConflict);
      }
      if dedup != "" && key in flows.dedupKeys && dedup in flows.dedupKeys[key] {
        return Keep;
      }
      var result := change(current);
      if result.None? {
        return Refuse(MutatorFailed);
      }
      var (updated, event) := result.value;
      updated := updated.(revision := updated.revision + 1, lastSequence := updated.lastSequence + 1);
      event := event.(id := eventId, workflowId := updated.id, tenantId := updated.tenantId,
                      sequence := updated.lastSequence, dedupKey := dedup);
      if event.dedupKey == "" {
        event := event.(dedupKey := "local:" + event.id);
      }
      d := Commit(WorkflowRecord(updated, event));
      Perform(ApplyWorkflow(key, expected, dedup, change, eventId), d.record);
    }

    method SetWorkerControl(control: WorkerControl, expected: nat, now: Time) returns (d: Decision)
      modifies this
      ensures Performed(SetControl(control, expected, now), d)
    {
      var mode := NormalMode(control.mode);
      if Text.Trim(control.scope) == "" || !ValidMode(mode) {
        return Refuse(Invalid);
      }
      var current := Get(controls, control.scope, WorkerControl("", "", 0, ZERO_TIME));
      if expected != 0 && current.revision != expected {
        return Refuse(RevisionConflict);
      }
      var next := control.(mode := mode, revision := current.revision + 1, updatedAt := now);
      file := file + [ControlRecord(next)];
      controls := controls[next.scope := next];
      d := Commit(ControlRecord(next));
    }
  }

  /**
   Opens a journal: fails exactly if some line is longer than the reader's buffer, and otherwise is the Reopen
   operation on any store that left this file.
   */
  method OpenJournal(file: seq<Record>, size: Record -> nat, ghost before: System) returns (r: Option<JournalStore>)
    requires before.file == file
    ensures r.Some? <==> Readable(file, size, JOURNAL_LINE)
    ensures r.Some? ==> fresh(r.value) && r.value.Now() == Exec(before, Reopen)
  {
    var store := new JournalStore(file, before.pruned);
    var ok := store.ReplayFile(size);
    return if ok then Some(store) else None;
  }
}
