/**
 What the event of an applied sub-step says (internal/hub/service.go, applyObservation): the key alone identifies it, so
 it is the sub-step's own if no other caller commits something else under that key.
 */
module InboxContent {
  import opened Wrappers
  import opened Model
  import opened Journal
  import opened JournalOps
  import opened JournalRefinement
  import opened EventLog
  import opened TaskChanges
  import TaskHistory
  import opened ObservationProtocol
  import opened InboxDelivery
  import opened Worlds

  /** The operation commits nothing else under the sub-step's key to its Task. */
  ghost predicate LeavesKey(op: Op, key: Key, sub: SubStep) {
    (op.ApplyTask? && op.key == key && LocalKey(op.dedup, op.eventId) == sub.dedup ==>
       exists now :: op.mutate == Mutator(sub.change, now)) &&
    (op.CreateTask? && op.task.ResourceKey() == key ==> LocalKey(op.draft.dedupKey, op.eventId) != sub.dedup)
  }

  ghost function KeyLeavingSteps(s: Setting, key: Key, sub: SubStep): (World, WorldStep) -> Option<World> {
    (w: World, step: WorldStep) =>
      if Legal(w, step, s) && (OpOf(w, step, s).Some? ==> LeavesKey(OpOf(w, step, s).value, key, sub))
      then Some(Next(w, step, s)) else None
  }

  ghost predicate EventsReport(events: seq<Event>, sub: SubStep) {
    forall e :: e in events && e.dedupKey == sub.dedup ==> TaskHistory.Reports(e, sub.change)
  }

  ghost predicate KeyReports(sys: System, key: Key, sub: SubStep) {
    SystemGood(sys) && EventsReport(Get(sys.mem.work.events, key, []), sub)
  }

  /** What an ApplyTask operation commits, in terms of its mutate argument. */
  lemma CommittedEvent(w: TaskStore, key: Key, expected: nat, dedup: string, mutate: TaskMutator, eventId: string)
    requires key in w.tasks && w.tasks[key].ResourceKey() == key && WellBehaved(mutate)
    ensures var d := DecideApplyTask(w, key, expected, dedup, mutate, eventId);
            d.Commit? ==>
              mutate(w.tasks[key]).Some? && d.record.task.ResourceKey() == key &&
              var draft := mutate(w.tasks[key]).value.1;
              d.record.event == Stamp(draft, d.record.task, dedup, eventId)
  {
  }

  lemma MutatedReports(mutate: TaskMutator, t: Task, task: Task, dedup: string, eventId: string, sub: SubStep)
    requires mutate(t).Some? && exists now :: mutate == Mutator(sub.change, now)
    ensures TaskHistory.Reports(Stamp(mutate(t).value.1, task, dedup, eventId), sub.change)
  {
    var now :| mutate == Mutator(sub.change, now);
    assert Mutator(sub.change, now)(t) == Changed(sub.change, t, now);
    TaskHistory.ChangeSays(sub.change, t, now);
  }

  /** The event that an operation commits to the Task reports the sub-step if it carries its key. */
  lemma CommittedReports(w: TaskStore, op: Op, key: Key, sub: SubStep)
    requires op.ApplyTask? && LeavesKey(op, key, sub) && WellBehaved(op.mutate)
    requires op.key in w.tasks && w.tasks[op.key].ResourceKey() == op.key
    ensures var d := DecideApplyTask(w, op.key, op.expected, op.dedup, op.mutate, op.eventId);
            d.Commit? && d.record.task.ResourceKey() == key && d.record.event.dedupKey == sub.dedup ==>
              TaskHistory.Reports(d.record.event, sub.change)
  {
    CommittedEvent(w, op.key, op.expected, op.dedup, op.mutate, op.eventId);
    var d := DecideApplyTask(w, op.key, op.expected, op.dedup, op.mutate, op.eventId);
    if d.Commit? && d.record.task.ResourceKey() == key && d.record.event.dedupKey == sub.dedup {
      MutatedReports(op.mutate, w.tasks[op.key], d.record.task, op.dedup, op.eventId, sub);
    }
  }

  lemma OneMoreReports(events: seq<Event>, event: Event, sub: SubStep)
    requires EventsReport(events, sub) && (event.dedupKey == sub.dedup ==> TaskHistory.Reports(event, sub.change))
    ensures EventsReport(events + [event], sub)
  {
  }

  /** The event that an operation adds to the Task's log. */
  lemma NewEventReports(sys: System, op: Op, key: Key, sub: SubStep)
    requires LogsAgreeWithTasks(sys.mem.work) && Admissible(sys.mem, op) && LeavesKey(op, key, sub)
    requires (op.CreateTask? || op.ApplyTask?) && Decide(sys.mem, op).Commit?
    ensures var r := Decide(sys.mem, op).record;
            r.task.ResourceKey() == key && r.event.dedupKey == sub.dedup ==> TaskHistory.Reports(r.event, sub.change)
  {
    if op.ApplyTask? {
      assert LogAgrees(op.key, sys.mem.work.tasks[op.key], sys.mem.work.events[op.key], sys.mem.work.dedupKeys[op.key]);
      CommittedReports(sys.mem.work, op, key, sub);
    }
  }

  lemma AddEventReports(w: TaskStore, task: Task, event: Event, key: Key, sub: SubStep)
    requires EventsReport(Get(w.events, key, []), sub)
    requires task.ResourceKey() == key && event.dedupKey == sub.dedup ==> TaskHistory.Reports(event, sub.change)
    ensures EventsReport(Get(AddEvent(w, task, event).events, key, []), sub)
  {
    if task.ResourceKey() == key {
      OneMoreReports(Get(w.events, key, []), event, sub);
    }
  }

  lemma OpKeepsReports(sys: System, op: Op, key: Key, sub: SubStep)
    requires KeyReports(sys, key, sub) && Admissible(sys.mem, op) && LeavesKey(op, key, sub)
    ensures KeyReports(Exec(sys, op), key, sub)
  {
    OpKeepsSystem(sys, op);
    WorkAfterExec(sys, op);
    if (op.CreateTask? || op.ApplyTask?) && Decide(sys.mem, op).Commit? {
      NewEventReports(sys, op, key, sub);
      var r := Decide(sys.mem, op).record;
      AddEventReports(sys.mem.work, r.task, r.event, key, sub);
    }
  }

  lemma StepKeepsReports(w: World, step: WorldStep, s: Setting, key: Key, sub: SubStep)
    requires WorldGood(w, s) && KeyReports(w.sys, key, sub) && KeyLeavingSteps(s, key, sub)(w, step).Some?
    ensures WorldGood(Next(w, step, s), s) && KeyReports(Next(w, step, s).sys, key, sub)
  {
    NextKeepsGood(w, step, s);
    if OpOf(w, step, s).Some? {
      LegalIsPermitted(w, step, s);
      OpKeepsReports(w.sys, OpOf(w, step, s).value, key, sub);
    }
  }

  /**
   The one event of an applied sub-step reports the sub-step itself, with its artifact, status and problem, in every
   world in which nobody commits anything else under its key.
   */
  lemma AppliedEventReportsSubStep(w: World, s: Setting, id: string, sub: SubStep) returns (j: nat)
    requires Acked(w.sys.mem, id) && id in w.sys.mem.inbox.items
    requires var item := w.sys.mem.inbox.items[id];
             Reaches(START, w, KeyLeavingSteps(s, TaskKeyOf(item), sub)) &&
             s.Steps(item).Some? && sub in s.Steps(item).value
    ensures var key := TaskKeyOf(w.sys.mem.inbox.items[id]);
            key in w.sys.mem.work.events &&
            var events := w.sys.mem.work.events[key];
            j < |events| && events[j].dedupKey == sub.dedup && TaskHistory.Reports(events[j], sub.change) &&
            forall m :: 0 <= m < |events| && events[m].dedupKey == sub.dedup ==> m == j
  {
    var key := TaskKeyOf(w.sys.mem.inbox.items[id]);
    FewerStepsReach(START, w, KeyLeavingSteps(s, key, sub), Steps(s));
    AckedItemsAreAppliedOnce(w, s, id);
    forall a, step | WorldGood(a, s) && KeyReports(a.sys, key, sub) && KeyLeavingSteps(s, key, sub)(a, step).Some?
      ensures WorldGood(Next(a, step, s), s) && KeyReports(Next(a, step, s).sys, key, sub)
    {
      StepKeepsReports(a, step, s, key, sub);
    }
    ReachableKeeps(START, w, KeyLeavingSteps(s, key, sub),
                   (a: World) => WorldGood(a, s) && KeyReports(a.sys, key, sub));
    var events := w.sys.mem.work.events[key];
    assert OnceIn(events, sub.dedup);
    j :| 0 <= j < |events| && events[j].dedupKey == sub.dedup &&
         forall m :: 0 <= m < |events| && events[m].dedupKey == sub.dedup ==> m == j;
    assert events[j] in events;
  }
}
