/**
 The changes the service makes to a Task (internal/hub/service.go): the mutate arguments of
 SubmitTask, CancelTask, recordProblem and applyObservation, and what no run of them can do.
 */
module TaskChanges {
  import opened Wrappers
  import opened Model
  import opened Journal
  import opened JournalOps
  import opened JournalRefinement
  import opened ArtifactMerge
  import EventLog

  /** One kind of change for each mutate argument. */
  datatype Change =
    | StartDelivery
    | EndDelivery(problem: Problem)
    | Disconnect(problem: Problem)
    | RequestCancel
    | RecordProblem(kind: string, problem: Problem)
    | ApplyStatus(observation: Observation)
    | AddArtifact(update: ArtifactUpdate, source: string)

  /** The observation was made before the latest one the Task has seen. */
  predicate Older(observed: Option<Time>, last: Option<Time>) {
    observed.Some? && last.Some? && observed.value < last.value
  }

  predicate ShouldApplyState(t: Task, o: Observation) {
    if t.state.Terminal() && t.state != o.state then false
    else !Older(o.remoteObservedAt, t.lastRemoteObservedAt)
  }

  function Draft(kind: string, source: string, now: Time): Event {
    Event("", "", "", "", 0, kind, source, None, None, None, None, now)
  }

  function WithStatus(t: Task, o: Observation, now: Time): Option<(Task, Event)> {
    if o.remoteTaskId != "" && t.remoteTaskId != "" && t.remoteTaskId != o.remoteTaskId then None
    else
      var after := t.(
        remoteTaskId := if o.remoteTaskId != "" then o.remoteTaskId else t.remoteTaskId,
        remoteContextId := if o.remoteContextId != "" then o.remoteContextId else t.remoteContextId,
        delivery := DeliveryAcknowledged,
        cancelRequested := t.cancelRequested || o.cancelRequested,
        state := if !o.state.Unknown? && ShouldApplyState(t, o) then o.state else t.state,
        lastRemoteObservedAt :=
          if o.remoteObservedAt.Some? && !Older(o.remoteObservedAt, t.lastRemoteObservedAt)
          then o.remoteObservedAt else t.lastRemoteObservedAt,
        problem := o.problem,
        updatedAt := now);
      Some((after, Draft("task.status", o.source, now).(
              state := Some(after.state), problem := o.problem, observedAt := o.remoteObservedAt)))
  }

  function Changed(c: Change, t: Task, now: Time): Option<(Task, Event)> {
    match c
    case StartDelivery =>
      Some((t.(delivery := DeliveryAmbiguous, updatedAt := now), Draft("delivery.started", "hub", now)))
    case EndDelivery(problem) =>
      Some((t.(delivery := if problem.ambiguous then t.delivery else DeliveryPending,
               problem := Some(problem), updatedAt := now),
            Draft(if problem.ambiguous then "delivery.ambiguous" else "delivery.rejected", "hub", now)
            .(problem := Some(problem))))
    case Disconnect(problem) =>
      Some((t.(problem := Some(problem), updatedAt := now),
            Draft("delivery.disconnected", "hub", now).(problem := Some(problem))))
    case RequestCancel =>
      Some((t.(cancelRequested := true, updatedAt := now), Draft("task.cancel_requested", "hub", now)))
    case RecordProblem(kind, problem) =>
      Some((t.(problem := Some(problem), updatedAt := now), Draft(kind, "hub", now).(problem := Some(problem))))
    case ApplyStatus(o) => WithStatus(t, o, now)
    case AddArtifact(u, source) =>
      Some((t.(artifacts := Merge(t.artifacts, u), updatedAt := now),
            Draft("task.artifact", source, now).(artifact := Some(u.artifact))))
  }

  function Mutator(c: Change, now: Time): TaskMutator {
    (t: Task) => Changed(c, t, now)
  }

  // What one change can do

  /** What holds between a Task and any later version of it. */
  ghost predicate Later(a: Task, b: Task) {
    b.id == a.id && b.tenantId == a.tenantId && b.agentId == a.agentId && b.messageId == a.messageId &&
    b.inputDigest == a.inputDigest && b.idempotencyKey == a.idempotencyKey && b.priority == a.priority &&
    b.pushTokenHash == a.pushTokenHash && b.createdAt == a.createdAt &&
    (a.remoteTaskId != "" ==> b.remoteTaskId == a.remoteTaskId) &&
    (a.state.Terminal() ==> b.state == a.state) &&
    (a.cancelRequested ==> b.cancelRequested) &&
    (a.lastRemoteObservedAt.Some? ==>
       b.lastRemoteObservedAt.Some? && a.lastRemoteObservedAt.value <= b.lastRemoteObservedAt.value) &&
    a.revision <= b.revision && a.lastSequence <= b.lastSequence
  }

  /** A known, different state, not past a terminal one, and not from before the latest observation seen. */
  predicate News(t: Task, o: Observation) {
    !o.state.Unknown? && o.state != t.state && !t.state.Terminal() &&
    (o.remoteObservedAt.Some? && t.lastRemoteObservedAt.Some? ==>
       t.lastRemoteObservedAt.value <= o.remoteObservedAt.value)
  }

  /** What a change makes of the state: only news moves it, to what was observed. */
  lemma ChangeMovesState(t: Task, c: Change, now: Time)
    requires Changed(c, t, now).Some?
    ensures var after := Changed(c, t, now).value.0;
            after.state == if c.ApplyStatus? && News(t, c.observation) then c.observation.state else t.state
  {
  }

  /** The service's changes are what the store asks of a mutate argument, and they only move a Task forward. */
  lemma ChangesMoveForward(c: Change, now: Time)
    ensures EventLog.WellBehaved(Mutator(c, now))
    ensures forall t :: Changed(c, t, now).Some? ==> Later(t, Changed(c, t, now).value.0)
  {
    forall t | Changed(c, t, now).Some?
      ensures var (after, event) := Changed(c, t, now).value;
              Later(t, after) && after.state == event.state.GetOr(t.state) &&
              after.revision == t.revision && after.lastSequence == t.lastSequence
    {
      match c
      case ApplyStatus(o) =>
      case _ =>
    }
  }

  // Every run of the service

  ghost predicate ServiceOp(op: Op) {
    op.ApplyTask? ==> exists c, now :: op.mutate == Mutator(c, now)
  }

  ghost predicate ServiceRun(ops: seq<Op>) {
    forall op :: op in ops ==> ServiceOp(op)
  }

  ghost predicate Keyed(w: TaskStore) {
    forall k :: k in w.tasks ==> w.tasks[k].ResourceKey() == k
  }

  lemma {:induction false} ServiceRunsStayKeyed(ops: seq<Op>)
    requires ServiceRun(ops)
    ensures Keyed(Run(INITIAL, ops).mem.work)
  {
    if ops != [] {
      var earlier, op := ops[..|ops| - 1], ops[|ops| - 1];
      ServiceRunsStayKeyed(earlier);
      ReplayRestoresMemory(earlier);
      WorkAfterExec(Run(INITIAL, earlier), op);
    }
  }

  lemma ServiceOpMovesForward(w: TaskStore, op: Op)
    requires ServiceOp(op) && op.ApplyTask? && Keyed(w)
    requires DecideApplyTask(w, op.key, op.expected, op.dedup, op.mutate, op.eventId).Commit?
    ensures var next := DecideApplyTask(w, op.key, op.expected, op.dedup, op.mutate, op.eventId).record.task;
            op.key in w.tasks && next.ResourceKey() == op.key && Later(w.tasks[op.key], next)
  {
    var c, now :| op.mutate == Mutator(c, now);
    ChangesMoveForward(c, now);
    assert Changed(c, w.tasks[op.key], now).Some?;
  }

  lemma OneOpMovesForward(sys: System, op: Op, key: Key)
    requires ServiceOp(op) && key in sys.mem.work.tasks && Keyed(sys.mem.work)
    requires Refines(Replay(sys.file), sys.mem, sys.pruned)
    ensures var after := Exec(sys, op).mem.work;
            key in after.tasks && Later(sys.mem.work.tasks[key], after.tasks[key])
  {
    WorkAfterExec(sys, op);
    if op.ApplyTask? && Decide(sys.mem, op).Commit? {
      ServiceOpMovesForward(sys.mem.work, op);
    }
  }

  /**
   Task monotonicity over every run: the remote Task ID is written once, a terminal state never changes,
   a cancellation request is never withdrawn, and the latest observation time never decreases.
   */
  lemma {:induction false} TasksMoveForward(before: seq<Op>, more: seq<Op>, key: Key)
    requires ServiceRun(before + more)
    requires key in Run(INITIAL, before).mem.work.tasks
    ensures var after := Run(INITIAL, before + more).mem.work.tasks;
            key in after && Later(Run(INITIAL, before).mem.work.tasks[key], after[key])
  {
    if more == [] {
      assert before + more == before;
    } else {
      var n := |more| - 1;
      var earlier := before + more[..n];
      assert before + more == earlier + [more[n]];
      assert forall op :: op in earlier ==> op in before + more;
      TasksMoveForward(before, more[..n], key);
      ServiceRunsStayKeyed(earlier);
      ReplayRestoresMemory(earlier);
      assert more[n] in before + more;
      OneOpMovesForward(Run(INITIAL, earlier), more[n], key);
      RunAppend(INITIAL, earlier, more[n]);
    }
  }

  /** The operation commits an observation to the Task that is news to it. */
  ghost predicate BringsNews(s: State, op: Op, key: Key, o: Observation, now: Time) {
    op.ApplyTask? && op.key == key && op.mutate == Mutator(ApplyStatus(o), now) && Decide(s, op).Commit? &&
    key in s.work.tasks && News(s.work.tasks[key], o)
  }

  lemma CommitMovesState(w: TaskStore, op: Op, c: Change, now: Time)
    requires op.ApplyTask? && op.mutate == Mutator(c, now)
    requires DecideApplyTask(w, op.key, op.expected, op.dedup, op.mutate, op.eventId).Commit?
    ensures var next := DecideApplyTask(w, op.key, op.expected, op.dedup, op.mutate, op.eventId).record.task;
            op.key in w.tasks &&
            next.state == if c.ApplyStatus? && News(w.tasks[op.key], c.observation) then c.observation.state
                          else w.tasks[op.key].state
  {
    assert op.mutate(w.tasks[op.key]) == Changed(c, w.tasks[op.key], now);
    ChangeMovesState(w.tasks[op.key], c, now);
  }

  /** One operation on a healthy store: the state of a Task moves if and only if it brings news. */
  lemma OneOpMovesStateIff(sys: System, op: Op, key: Key)
    requires ServiceOp(op) && key in sys.mem.work.tasks && Keyed(sys.mem.work)
    requires Refines(Replay(sys.file), sys.mem, sys.pruned)
    ensures var before, after := sys.mem.work.tasks[key], Exec(sys, op).mem.work;
            key in after.tasks &&
            (after.tasks[key].state != before.state <==> exists o, now :: BringsNews(sys.mem, op, key, o, now))
  {
    WorkAfterExec(sys, op);
    if op.ApplyTask? && Decide(sys.mem, op).Commit? {
      var c, now :| op.mutate == Mutator(c, now);
      ServiceOpMovesForward(sys.mem.work, op);
      CommitMovesState(sys.mem.work, op, c, now);
      if op.key == key && c.ApplyStatus? && News(sys.mem.work.tasks[key], c.observation) {
        assert BringsNews(sys.mem, op, key, c.observation, now);
      }
      forall o, later | BringsNews(sys.mem, op, key, o, later)
        ensures Exec(sys, op).mem.work.tasks[key].state == o.state
      {
        CommitMovesState(sys.mem.work, op, ApplyStatus(o), later);
      }
    }
  }

  /**
   At every point of every run of the service, the state of a Task moves if and only if the operation commits an
   observation that names a known, different state, is no older than the latest one seen, and does not come after a
   terminal state.
   */
  lemma StateMovesIff(ops: seq<Op>, op: Op, key: Key)
    requires ServiceRun(ops + [op]) && key in Run(INITIAL, ops).mem.work.tasks
    ensures var before, after := Run(INITIAL, ops).mem, Run(INITIAL, ops + [op]).mem.work;
            key in after.tasks &&
            (after.tasks[key].state != before.work.tasks[key].state <==>
             exists o, now :: BringsNews(before, op, key, o, now))
  {
    forall o | o in ops ensures ServiceOp(o) {
      assert o in ops + [op];
    }
    assert op in ops + [op];
    ServiceRunsStayKeyed(ops);
    ReplayRestoresMemory(ops);
    RunAppend(INITIAL, ops, op);
    OneOpMovesStateIff(Run(INITIAL, ops), op, key);
  }
}
