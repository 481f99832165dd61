/**
 The per-task event logs, their deduplication sets, and the outbox derived from them, over every
 run of the store.
 */
module EventLog {
  import opened Wrappers
  import opened Model
  import opened Journal
  import opened JournalOps
  import opened JournalRefinement

  /** A new ID is not the ID of a queued item, and its local key is not yet in any task's set. */
  ghost predicate FreshId(s: State, eventId: string) {
    eventId !in s.outbox.items &&
    forall k :: k in s.work.dedupKeys ==> ("local:" + eventId) !in s.work.dedupKeys[k]
  }

  /** What the store asks of a mutate argument: identity and counters stay, the event tells the state. */
  ghost predicate WellBehaved(mutate: TaskMutator) {
    forall t :: mutate(t).Some? ==>
      var (after, event) := mutate(t).value;
      after.id == t.id && after.tenantId == t.tenantId &&
      after.revision == t.revision && after.lastSequence == t.lastSequence &&
      after.state == event.state.GetOr(t.state)
  }

  ghost predicate Admissible(s: State, op: Op) {
    match op
    case CreateTask(task, draft, eventId) => FreshId(s, eventId) && draft.state == Some(task.state)
    case ApplyTask(_, _, _, mutate, eventId) => FreshId(s, eventId) && WellBehaved(mutate)
    case OutboxCall(EnqueueOutbox(item)) => item.id !in s.outbox.items
    case _ => true
  }

  ghost predicate AdmissibleRun(ops: seq<Op>) {
    ops == [] ||
    (AdmissibleRun(ops[..|ops| - 1]) && Admissible(Run(INITIAL, ops[..|ops| - 1]).mem, ops[|ops| - 1]))
  }

  /** The state named by the last event that names one. */
  function LastState(events: seq<Event>): Option<TaskState> {
    if events == [] then None
    else if events[|events| - 1].state.Some? then events[|events| - 1].state
    else LastState(events[..|events| - 1])
  }

  function DedupKeysOf(events: seq<Event>): set<string> {
    set e | e in events :: e.dedupKey
  }

  ghost predicate LogAgrees(k: Key, task: Task, events: seq<Event>, dedup: set<string>) {
    task.ResourceKey() == k &&
    |events| == task.lastSequence == task.revision && |events| >= 1 &&
    (forall i :: 0 <= i < |events| ==>
       events[i].sequence == i + 1 && events[i].taskId == k.id && events[i].tenantId == k.tenant) &&
    (forall i, j :: 0 <= i < j < |events| ==> events[i].dedupKey != events[j].dedupKey) &&
    dedup == DedupKeysOf(events) &&
    LastState(events) == Some(task.state)
  }

  ghost predicate Mirrored(events: seq<Event>, outbox: map<string, OutboxItem>) {
    forall i :: 0 <= i < |events| ==>
      events[i].id in outbox && outbox[events[i].id] == FromEvent(events[i])
  }

  ghost predicate LogsAgreeWithTasks(w: TaskStore) {
    w.tasks.Keys == w.events.Keys == w.dedupKeys.Keys &&
    forall k :: k in w.tasks ==> LogAgrees(k, w.tasks[k], w.events[k], w.dedupKeys[k])
  }

  ghost predicate AllMirrored(events: map<Key, seq<Event>>, outbox: map<string, OutboxItem>) {
    forall k :: k in events ==> Mirrored(events[k], outbox)
  }

  ghost predicate LogInvariant(s: State) {
    LogsAgreeWithTasks(s.work) && AllMirrored(s.work.events, s.outbox.items)
  }

  lemma ExtendLog(k: Key, task: Task, events: seq<Event>, dedup: set<string>, next: Task, event: Event)
    requires LogAgrees(k, task, events, dedup)
    requires next.ResourceKey() == k && next.revision == task.revision + 1 && next.lastSequence == task.lastSequence + 1
    requires event.sequence == next.lastSequence && event.taskId == k.id && event.tenantId == k.tenant
    requires event.dedupKey !in dedup
    requires next.state == event.state.GetOr(task.state)
    ensures LogAgrees(k, next, events + [event], dedup + {event.dedupKey})
  {
    var longer := events + [event];
    assert longer[..|events|] == events;
    forall i, j | 0 <= i < j < |longer|
      ensures longer[i].dedupKey != longer[j].dedupKey
    {
      assert longer[i] in events;
    }
    assert forall e :: e in longer <==> e in events || e == event;
  }

  lemma StartLog(k: Key, task: Task, event: Event)
    requires task.ResourceKey() == k && task.revision == 1 && task.lastSequence == 1
    requires event.sequence == 1 && event.taskId == k.id && event.tenantId == k.tenant
    requires event.state == Some(task.state)
    ensures LogAgrees(k, task, [event], {event.dedupKey})
  {
  }

  /** The logs agree with the Tasks, and every event has its item. */
  ghost predicate Logged(w: TaskStore, items: map<string, OutboxItem>) {
    LogsAgreeWithTasks(w) && AllMirrored(w.events, items)
  }

  /** The ID is neither an item's nor, as a local key, in a Task's set. */
  ghost predicate Fresh(w: TaskStore, items: map<string, OutboxItem>, eventId: string) {
    eventId !in items && forall k :: k in w.dedupKeys ==> ("local:" + eventId) !in w.dedupKeys[k]
  }

  lemma CreateKeepsLog(w: TaskStore, items: map<string, OutboxItem>, task: Task, draft: Event, eventId: string)
    requires Logged(w, items) && Fresh(w, items, eventId) && draft.state == Some(task.state)
    requires DecideCreateTask(w, task, draft, eventId).Commit?
    ensures var r := DecideCreateTask(w, task, draft, eventId).record;
            Logged(AddEvent(w, r.task, r.event), items[r.outbox.id := r.outbox])
  {
    var TaskRecord(next, event, item) := DecideCreateTask(w, task, draft, eventId).record;
    var k := next.ResourceKey();
    assert k !in w.tasks;
    StartLog(k, next, event);
    AddNewLogKeepsLogs(w, next, event);
    ExtendMirror(w.events, items, k, event);
  }

  lemma AddNewLogKeepsLogs(w: TaskStore, next: Task, event: Event)
    requires LogsAgreeWithTasks(w) && next.ResourceKey() !in w.tasks
    requires LogAgrees(next.ResourceKey(), next, [event], {event.dedupKey})
    ensures LogsAgreeWithTasks(AddEvent(w, next, event))
  {
    var k := next.ResourceKey();
    assert Get(w.events, k, []) + [event] == [event];
    assert Get(w.dedupKeys, k, {}) + {event.dedupKey} == {event.dedupKey};
  }

  lemma AddEventKeepsLogs(w: TaskStore, next: Task, event: Event)
    requires LogsAgreeWithTasks(w)
    requires next.ResourceKey() in w.tasks
    requires LogAgrees(next.ResourceKey(), next, w.events[next.ResourceKey()] + [event],
                       w.dedupKeys[next.ResourceKey()] + {event.dedupKey})
    ensures LogsAgreeWithTasks(AddEvent(w, next, event))
  {
  }

  /** What a well-behaved mutate and the store's stamping make of the next Task and its event. */
  lemma StampedStep(w: TaskStore, key: Key, expected: nat, dedup: string, mutate: TaskMutator, eventId: string)
    requires LogsAgreeWithTasks(w) && WellBehaved(mutate)
    requires key in w.tasks && ("local:" + eventId) !in w.dedupKeys[key]
    requires DecideApplyTask(w, key, expected, dedup, mutate, eventId).Commit?
    ensures var TaskRecord(next, event, item) := DecideApplyTask(w, key, expected, dedup, mutate, eventId).record;
            var current := w.tasks[key];
            next.ResourceKey() == key && item == FromEvent(event) && event.id == eventId &&
            next.revision == current.revision + 1 && next.lastSequence == current.lastSequence + 1 &&
            event.sequence == next.lastSequence && event.taskId == key.id && event.tenantId == key.tenant &&
            event.dedupKey !in w.dedupKeys[key] &&
            next.state == event.state.GetOr(current.state)
  {
    var current := w.tasks[key];
    assert LogAgrees(key, current, w.events[key], w.dedupKeys[key]);
    var (mutated, draft) := mutate(current).value;
    assert mutated.state == draft.state.GetOr(current.state);
  }

  lemma ApplyTaskKeepsLog(w: TaskStore, items: map<string, OutboxItem>, key: Key, expected: nat, dedup: string,
                          mutate: TaskMutator, eventId: string)
    requires Logged(w, items) && Fresh(w, items, eventId) && WellBehaved(mutate)
    requires DecideApplyTask(w, key, expected, dedup, mutate, eventId).Commit?
    ensures var r := DecideApplyTask(w, key, expected, dedup, mutate, eventId).record;
            Logged(AddEvent(w, r.task, r.event), items[r.outbox.id := r.outbox])
  {
    StampedStep(w, key, expected, dedup, mutate, eventId);
    var TaskRecord(next, event, item) := DecideApplyTask(w, key, expected, dedup, mutate, eventId).record;
    ExtendLog(key, w.tasks[key], w.events[key], w.dedupKeys[key], next, event);
    AddEventKeepsLogs(w, next, event);
    ExtendMirror(w.events, items, key, event);
  }

  lemma ExtendMirror(events: map<Key, seq<Event>>, outbox: map<string, OutboxItem>, k: Key, event: Event)
    requires AllMirrored(events, outbox) && event.id !in outbox
    ensures AllMirrored(events[k := Get(events, k, []) + [event]], outbox[event.id := FromEvent(event)])
  {
  }

  lemma OtherItemKeepsMirror(events: map<Key, seq<Event>>, items: map<string, OutboxItem>, item: OutboxItem)
    requires AllMirrored(events, items) && item.id !in items
    ensures AllMirrored(events, items[item.id := item])
  {
  }

  /** An outbox operation at most adds an item of a new ID. */
  lemma OutboxOpKeepsMirror(events: map<Key, seq<Event>>, o: OutboxStore, op: OutboxOp)
    requires AllMirrored(events, o.items) && (op.EnqueueOutbox? ==> op.item.id !in o.items)
    requires DecideOutbox(o, op).Commit?
    ensures AllMirrored(events, OutboxAfter(o, DecideOutbox(o, op).record).items)
  {
    if op.EnqueueOutbox? {
      OtherItemKeepsMirror(events, o.items, op.item);
    }
  }

  lemma ExecKeepsLog(sys: System, op: Op)
    requires LogInvariant(sys.mem) && Admissible(sys.mem, op)
    requires Refines(Replay(sys.file), sys.mem, sys.pruned)
    ensures LogInvariant(Exec(sys, op).mem)
  {
    var w, o := sys.mem.work, sys.mem.outbox;
    WorkAfterExec(sys, op);
    OutboxAfterExec(sys, op);
    if op.CreateTask? {
      if Decide(sys.mem, op).Commit? {
        CreateKeepsLog(w, o.items, op.task, op.draft, op.eventId);
      }
    } else if op.ApplyTask? {
      if Decide(sys.mem, op).Commit? {
        ApplyTaskKeepsLog(w, o.items, op.key, op.expected, op.dedup, op.mutate, op.eventId);
      }
    } else if op.OutboxCall? && DecideOutbox(o, op.outbox).Commit? {
      OutboxOpKeepsMirror(w.events, o, op.outbox);
    }
  }

  /**
   Event log agreement, over every run: sequences are 1..LastSequence = Revision, the dedup set is
   exactly the log's distinct keys, the Task's state is the last one reported, and every event has
   its outbox item.
   */
  lemma {:induction false} LogsAgree(ops: seq<Op>)
    requires AdmissibleRun(ops)
    ensures LogInvariant(Run(INITIAL, ops).mem)
  {
    if ops != [] {
      var earlier := ops[..|ops| - 1];
      LogsAgree(earlier);
      ReplayRestoresMemory(earlier);
      ExecKeepsLog(Run(INITIAL, earlier), ops[|ops| - 1]);
    }
  }

  /** No two events anywhere share an outbox item. */
  lemma OneOutboxItemPerEvent(ops: seq<Op>, k: Key, i: nat, k2: Key, j: nat)
    requires AdmissibleRun(ops)
    requires var s := Run(INITIAL, ops).mem.work;
             k in s.events && i < |s.events[k]| && k2 in s.events && j < |s.events[k2]| &&
             s.events[k][i].id == s.events[k2][j].id
    ensures k == k2 && i == j
  {
    LogsAgree(ops);
    var s := Run(INITIAL, ops).mem.work;
    var items := Run(INITIAL, ops).mem.outbox.items;
    assert Mirrored(s.events[k], items) && Mirrored(s.events[k2], items);
    assert FromEvent(s.events[k][i]).payload == FromEvent(s.events[k2][j]).payload;
    assert LogAgrees(k, s.tasks[k], s.events[k], s.dedupKeys[k]);
    assert LogAgrees(k2, s.tasks[k2], s.events[k2], s.dedupKeys[k2]);
  }

  function Min(a: nat, b: nat): nat { if a < b then a else b }

  lemma {:induction false} EventsAfterAt(events: seq<Event>, after: nat, n: nat)
    requires n <= |events| && forall i :: 0 <= i < |events| ==> events[i].sequence == i + 1
    ensures var read, start := EventsAfterTo(events, after, n), Min(after, n);
            |read| == n - start && forall k :: 0 <= k < |read| ==> read[k] == events[start + k]
  {
    if n > 0 {
      EventsAfterAt(events, after, n - 1);
    }
  }

  /** On a numbered log a cursor read is the suffix after the cursor. */
  lemma EventsAfterIsSuffix(events: seq<Event>, after: nat)
    requires forall i :: 0 <= i < |events| ==> events[i].sequence == i + 1
    ensures EventsAfter(events, after) == events[Min(after, |events|)..]
  {
    EventsAfterAt(events, after, |events|);
  }
}
