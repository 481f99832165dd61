/**
 Inbox delivery on top of the observation protocol (internal/worker/inbox.go): at-least-once redelivery by any
 number of workers, which may overlap on one item once a lease has expired, with crashes anywhere and
 everything else the store does in between.
 */
module InboxDelivery {
  import opened Wrappers
  import opened Model
  import opened Journal
  import opened JournalOps
  import opened JournalRefinement
  import opened EventLog
  import opened TaskChanges
  import opened ObservationProtocol
  import opened Worlds

  /** How observations are digested and how file parts are moved to object storage. */
  datatype Setting = Setting(digest: Observation -> string, move: (nat, Artifact) -> Option<Artifact>)
  {
    function Steps(item: InboxItem): Option<seq<SubStep>> {
      ItemSteps(item, digest, move)
    }
  }

  /** A worker with an item in hand. Several may have the same one: an expired lease is claimed again. */
  datatype Hand = Hand(worker: string, item: string)

  /** The store, and how many sub-steps of its item each worker has committed. */
  datatype World = World(sys: System, progress: map<Hand, nat>)

  datatype WorldStep =
    | Client(op: Op)                                       // any other caller of the store
    | Begin(hand: Hand)                                    // a worker takes up an item
    | CommitSubStep(hand: Hand, now: Time, eventId: string) // and commits its next sub-step
    | Abandon(hand: Hand)                                  // or gives up, as after a refusal
    | Ack(hand: Hand)                                      // and acknowledges it after the last
    | Crash                                                // every worker stops, and the store is reopened

  ghost predicate Legal(w: World, step: WorldStep, s: Setting) {
    var items := w.sys.mem.inbox.items;
    match step
    case Client(op) =>
      Admissible(w.sys.mem, op) &&
      (op.InboxCall? ==> !op.inbox.AckInbox? && (op.inbox.EnqueueInbox? ==> op.inbox.item.id !in items))
    case Begin(h) => h.item in items && s.Steps(items[h.item]).Some? && Applicable(w.sys.mem.work, items[h.item])
    case CommitSubStep(h, now, eventId) =>
      h in w.progress && h.item in items && s.Steps(items[h.item]).Some? &&
      w.progress[h] < |s.Steps(items[h.item]).value| && FreshId(w.sys.mem, eventId) &&
      !Decide(w.sys.mem, CommitOp(w, s, h, now, eventId)).Refuse?
    case Abandon(_) => true
    case Ack(h) =>
      h in w.progress && h.item in items && s.Steps(items[h.item]).Some? &&
      w.progress[h] == |s.Steps(items[h.item]).value|
    case Crash => true
  }

  function CommitOp(w: World, s: Setting, h: Hand, now: Time, eventId: string): Op
    requires h in w.progress && h.item in w.sys.mem.inbox.items && s.Steps(w.sys.mem.inbox.items[h.item]).Some?
    requires w.progress[h] < |s.Steps(w.sys.mem.inbox.items[h.item]).value|
  {
    var item := w.sys.mem.inbox.items[h.item];
    StepOp(TaskKeyOf(item), s.Steps(item).value[w.progress[h]], now, eventId)
  }

  /** What the step asks of the store. */
  ghost function OpOf(w: World, step: WorldStep, s: Setting): Option<Op>
    requires Legal(w, step, s)
  {
    match step
    case Client(op) => Some(op)
    case CommitSubStep(h, now, eventId) => Some(CommitOp(w, s, h, now, eventId))
    case Ack(h) => Some(InboxCall(AckInbox(h.item, h.worker)))
    case Crash => Some(Reopen)
    case _ => None
  }

  ghost function ProgressOf(w: World, step: WorldStep, s: Setting): map<Hand, nat>
    requires Legal(w, step, s)
  {
    match step
    case Begin(h) => w.progress[h := 0]
    case CommitSubStep(h, _, _) => w.progress[h := w.progress[h] + 1]
    case Abandon(h) => w.progress - {h}
    case Ack(h) => w.progress - {h}
    case Crash => map[]
    case Client(_) => w.progress
  }

  function Perform(sys: System, op: Option<Op>): System {
    match op
    case None => sys
    case Some(op) => Exec(sys, op)
  }

  ghost function Next(w: World, step: WorldStep, s: Setting): World
    requires Legal(w, step, s)
  {
    World(Perform(w.sys, OpOf(w, step, s)), ProgressOf(w, step, s))
  }

  ghost function Steps(s: Setting): (World, WorldStep) -> Option<World> {
    (w: World, step: WorldStep) => if Legal(w, step, s) then Some(Next(w, step, s)) else None
  }

  const START := World(INITIAL, map[])

  // The invariant

  function Keys(w: TaskStore, key: Key): set<string> {
    Get(w.dedupKeys, key, {})
  }

  ghost predicate AppliedUpTo(m: State, id: string, n: nat, s: Setting) {
    id in m.inbox.items &&
    var item := m.inbox.items[id];
    s.Steps(item).Some? && TaskKeyOf(item) in m.work.tasks && n <= |s.Steps(item).value| &&
    forall k :: 0 <= k < n ==> s.Steps(item).value[k].dedup in Keys(m.work, TaskKeyOf(item))
  }

  ghost predicate Applied(m: State, id: string, s: Setting) {
    id in m.inbox.items && s.Steps(m.inbox.items[id]).Some? &&
    AppliedUpTo(m, id, |s.Steps(m.inbox.items[id]).value|, s)
  }

  predicate Acked(m: State, id: string) {
    Get(m.inbox.states, id, NO_INBOX_STATE).acked
  }

  /** Progress was really made, and whatever is acknowledged was applied. */
  ghost predicate ItemsGood(m: State, progress: map<Hand, nat>, s: Setting) {
    (forall h :: h in progress ==> AppliedUpTo(m, h.item, progress[h], s)) &&
    (forall id :: Acked(m, id) ==> Applied(m, id, s))
  }

  ghost predicate SystemGood(sys: System) {
    LogInvariant(sys.mem) && Refines(Replay(sys.file), sys.mem, sys.pruned)
  }

  /** What every operation leaves in place: tasks, keys and items. */
  ghost predicate Grows(a: State, b: State) {
    (forall k :: k in a.work.tasks ==> k in b.work.tasks && Keys(a.work, k) <= Keys(b.work, k)) &&
    (forall id :: id in a.inbox.items ==> id in b.inbox.items && b.inbox.items[id] == a.inbox.items[id])
  }

  /** Items may be newly acknowledged only if they were applied. */
  ghost predicate AcksApplied(a: State, b: State, s: Setting) {
    forall id :: Acked(b, id) ==> Acked(a, id) || Applied(a, id, s)
  }

  /** What a legal step may ask: only an applied item is acknowledged. */
  ghost predicate Permitted(m: State, op: Op, s: Setting) {
    Admissible(m, op) &&
    (op.InboxCall? && op.inbox.EnqueueInbox? ==> op.inbox.item.id !in m.inbox.items) &&
    (op.InboxCall? && op.inbox.AckInbox? ==> Applied(m, op.inbox.id, s))
  }

  lemma OpKeepsSystem(sys: System, op: Op)
    requires SystemGood(sys) && Admissible(sys.mem, op)
    ensures SystemGood(Exec(sys, op))
  {
    ExecKeepsLog(sys, op);
    ExecRefines(sys, op);
  }

  lemma OpGrows(sys: System, op: Op, s: Setting)
    requires SystemGood(sys) && Permitted(sys.mem, op, s)
    ensures Grows(sys.mem, Exec(sys, op).mem)
  {
    ItemsStay(sys, op, s);
    forall k | k in sys.mem.work.tasks
      ensures k in Exec(sys, op).mem.work.tasks && Keys(sys.mem.work, k) <= Keys(Exec(sys, op).mem.work, k)
    {
      OneOpKeepsKeys(sys, op, k);
    }
  }

  /** What one inbox operation can do to the items and to the acknowledgements. */
  lemma InboxOpEffect(i: InboxStore, op: InboxOp)
    requires op.EnqueueInbox? ==> op.item.id !in i.items
    requires DecideInbox(i, op).Commit?
    ensures var next := InboxAfter(i, DecideInbox(i, op).record);
            (forall id :: id in i.items ==> id in next.items && next.items[id] == i.items[id]) &&
            forall id :: Get(next.states, id, NO_INBOX_STATE).acked && !Get(i.states, id, NO_INBOX_STATE).acked ==>
              op.AckInbox? && op.id == id
  {
  }

  lemma InboxAfterOp(sys: System, op: Op)
    requires SystemGood(sys)
    ensures Exec(sys, op).mem.inbox == sys.mem.inbox ||
            (op.InboxCall? && DecideInbox(sys.mem.inbox, op.inbox).Commit? &&
             Exec(sys, op).mem.inbox == InboxAfter(sys.mem.inbox, DecideInbox(sys.mem.inbox, op.inbox).record))
  {
    InboxAfterExec(sys, op);
  }

  lemma ItemsStay(sys: System, op: Op, s: Setting)
    requires SystemGood(sys) && Permitted(sys.mem, op, s)
    ensures var a, b := sys.mem.inbox.items, Exec(sys, op).mem.inbox.items;
            forall id :: id in a ==> id in b && b[id] == a[id]
    ensures AcksApplied(sys.mem, Exec(sys, op).mem, s)
  {
    InboxAfterOp(sys, op);
    if Exec(sys, op).mem.inbox != sys.mem.inbox {
      InboxOpEffect(sys.mem.inbox, op.inbox);
    }
  }

  lemma AppliedStays(a: State, b: State, id: string, n: nat, s: Setting)
    requires Grows(a, b) && AppliedUpTo(a, id, n, s)
    ensures AppliedUpTo(b, id, n, s)
  {
  }

  lemma ItemsStayGood(a: State, b: State, before: map<Hand, nat>, after: map<Hand, nat>, s: Setting)
    requires ItemsGood(a, before, s) && Grows(a, b) && AcksApplied(a, b, s)
    requires forall h :: h in after ==>
               (h in before && after[h] == before[h]) || AppliedUpTo(b, h.item, after[h], s)
    ensures ItemsGood(b, after, s)
  {
    forall h | h in after ensures AppliedUpTo(b, h.item, after[h], s) {
      if h in before && after[h] == before[h] {
        AppliedStays(a, b, h.item, before[h], s);
      }
    }
    forall id | Acked(b, id) ensures Applied(b, id, s) {
      AppliedStays(a, b, id, |s.Steps(a.inbox.items[id]).value|, s);
    }
  }

  lemma OneMoreApplied(a: State, b: State, id: string, n: nat, s: Setting)
    requires AppliedUpTo(a, id, n, s) && Grows(a, b)
    requires n < |s.Steps(a.inbox.items[id]).value|
    requires s.Steps(a.inbox.items[id]).value[n].dedup in Keys(b.work, TaskKeyOf(a.inbox.items[id]))
    ensures AppliedUpTo(b, id, n + 1, s)
  {
  }

  /** A sub-step that is not refused leaves its key in the Task's set. */
  lemma StepRecordsKey(sys: System, key: Key, step: SubStep, now: Time, eventId: string)
    requires SystemGood(sys) && key in sys.mem.work.tasks && step.dedup != ""
    requires !Decide(sys.mem, StepOp(key, step, now, eventId)).Refuse?
    ensures step.dedup in Keys(Exec(sys, StepOp(key, step, now, eventId)).mem.work, key)
  {
    WorkAfterExec(sys, StepOp(key, step, now, eventId));
    assert LogAgrees(key, sys.mem.work.tasks[key], sys.mem.work.events[key], sys.mem.work.dedupKeys[key]);
    DecisionRecordsKey(sys.mem.work, key, step, now, eventId);
  }

  lemma DecisionRecordsKey(w: TaskStore, key: Key, step: SubStep, now: Time, eventId: string)
    requires key in w.tasks && w.tasks[key].ResourceKey() == key && step.dedup != ""
    ensures var d := DecideApplyTask(w, key, 0, step.dedup, Mutator(step.change, now), eventId);
            (d.Commit? ==> step.dedup in Keys(AddEvent(w, d.record.task, d.record.event), key)) &&
            (d.Keep? ==> step.dedup in Keys(w, key))
  {
    ChangesMoveForward(step.change, now);
  }

  lemma LegalIsPermitted(w: World, step: WorldStep, s: Setting)
    requires ItemsGood(w.sys.mem, w.progress, s) && Legal(w, step, s)
    ensures OpOf(w, step, s).Some? ==> Permitted(w.sys.mem, OpOf(w, step, s).value, s)
  {
    match step
    case CommitSubStep(h, now, eventId) =>
      ChangesMoveForward(s.Steps(w.sys.mem.inbox.items[h.item]).value[w.progress[h]].change, now);
    case Ack(h) => assert Applied(w.sys.mem, h.item, s);
    case _ =>
  }

  /** The key of the sub-step that is committed is recorded afterwards. */
  ghost predicate KeyRecorded(w: World, step: WorldStep, s: Setting, b: State)
    requires Legal(w, step, s)
  {
    step.CommitSubStep? ==>
      var item := w.sys.mem.inbox.items[step.hand.item];
      s.Steps(item).value[w.progress[step.hand]].dedup in Keys(b.work, TaskKeyOf(item))
  }

  lemma CommitRecordsKey(w: World, step: WorldStep, s: Setting)
    requires SystemGood(w.sys) && ItemsGood(w.sys.mem, w.progress, s) && Legal(w, step, s) && step.CommitSubStep?
    ensures KeyRecorded(w, step, s, Exec(w.sys, OpOf(w, step, s).value).mem)
  {
    var item := w.sys.mem.inbox.items[step.hand.item];
    StepsAreNamed(item, s);
    StepRecordsKey(w.sys, TaskKeyOf(item), s.Steps(item).value[w.progress[step.hand]], step.now, step.eventId);
  }

  /** Progress is real in any later state that keeps what was there and records the committed key. */
  lemma ProgressIsReal(w: World, step: WorldStep, s: Setting, b: State)
    requires ItemsGood(w.sys.mem, w.progress, s) && Legal(w, step, s)
    requires Grows(w.sys.mem, b) && AcksApplied(w.sys.mem, b, s) && KeyRecorded(w, step, s, b)
    ensures ItemsGood(b, ProgressOf(w, step, s), s)
  {
    match step {
      case Begin(h) =>
        assert AppliedUpTo(w.sys.mem, h.item, 0, s);
        AppliedStays(w.sys.mem, b, h.item, 0, s);
      case CommitSubStep(h, _, _) =>
        OneMoreApplied(w.sys.mem, b, h.item, w.progress[h], s);
      case _ =>
    }
    ItemsStayGood(w.sys.mem, b, w.progress, ProgressOf(w, step, s), s);
  }

  ghost predicate WorldGood(w: World, s: Setting) {
    SystemGood(w.sys) && ItemsGood(w.sys.mem, w.progress, s)
  }

  lemma NextKeepsGood(w: World, step: WorldStep, s: Setting)
    requires SystemGood(w.sys) && ItemsGood(w.sys.mem, w.progress, s) && Legal(w, step, s)
    ensures WorldGood(Next(w, step, s), s)
  {
    var op := OpOf(w, step, s);
    if op.Some? {
      LegalIsPermitted(w, step, s);
      OpKeepsSystem(w.sys, op.value);
      OpGrows(w.sys, op.value, s);
      ItemsStay(w.sys, op.value, s);
      if step.CommitSubStep? {
        CommitRecordsKey(w, step, s);
      }
    }
    ProgressIsReal(w, step, s, Perform(w.sys, op).mem);
  }

  lemma StepsAreNamed(item: InboxItem, s: Setting)
    ensures s.Steps(item).Some? ==> Named(s.Steps(item).value) && DistinctKeys(s.Steps(item).value)
  {
    if s.Steps(item).Some? {
      var o := Pushed(item.payload.observation);
      SubStepKeysDistinct(o.(artifacts := Externalized(o.artifacts, s.move).value), BaseKey(o, s.digest));
    }
  }

  /** Every world that legal steps lead to is good. */
  lemma ReachableIsGood(w: World, s: Setting)
    requires Reaches(START, w, Steps(s))
    ensures WorldGood(w, s)
  {
    forall a, step | WorldGood(a, s) && Legal(a, step, s) ensures WorldGood(Next(a, step, s), s) {
      NextKeepsGood(a, step, s);
    }
    ReachableKeeps(START, w, Steps(s), (a: World) => WorldGood(a, s));
  }

  /** Exactly one event of the log carries the key. */
  ghost predicate OnceIn(events: seq<Event>, dedup: string) {
    exists j :: 0 <= j < |events| && events[j].dedupKey == dedup &&
                forall m :: 0 <= m < |events| && events[m].dedupKey == dedup ==> m == j
  }

  /**
   An acknowledged item was applied exactly once: whatever the workers, the crashes and the other callers did,
   every sub-step of its observation is one event of its Task's log, and no two sub-steps share an event.
   */
  lemma AckedItemsAreAppliedOnce(w: World, s: Setting, id: string)
    requires Reaches(START, w, Steps(s)) && Acked(w.sys.mem, id)
    ensures var m := w.sys.mem;
            id in m.inbox.items && s.Steps(m.inbox.items[id]).Some? &&
            var item := m.inbox.items[id];
            DistinctKeys(s.Steps(item).value) && TaskKeyOf(item) in m.work.events &&
            forall step :: step in s.Steps(item).value ==> OnceIn(m.work.events[TaskKeyOf(item)], step.dedup)
  {
    ReachableIsGood(w, s);
    var m := w.sys.mem;
    assert Applied(m, id, s);
    var item := m.inbox.items[id];
    StepsAreNamed(item, s);
    var key := TaskKeyOf(item);
    assert LogAgrees(key, m.work.tasks[key], m.work.events[key], m.work.dedupKeys[key]);
    forall step | step in s.Steps(item).value ensures OnceIn(m.work.events[key], step.dedup) {
      assert step.dedup in DedupKeysOf(m.work.events[key]);
    }
  }
}
