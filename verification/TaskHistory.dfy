/**
 What a Task says about its past (internal/hub/service.go): after every run of the service each of its fields is told
 by the changes that were committed to it, in the order of its log.
 */
module TaskHistory {
  import opened Wrappers
  import opened Model
  import opened Journal
  import opened JournalOps
  import opened JournalRefinement
  import opened ArtifactMerge
  import opened TaskChanges

  /** A call of the store: the service's change of a Task, or anything else. */
  datatype Call =
    | Change(key: Key, expected: nat, dedup: string, change: TaskChanges.Change, now: Time, eventId: string)
    | Other(op: Op)

  function OpOf(call: Call): Op {
    match call
    case Change(key, expected, dedup, change, now, eventId) =>
      ApplyTask(key, expected, dedup, Mutator(change, now), eventId)
    case Other(op) => op
  }

  function OpsOf(calls: seq<Call>, n: nat): seq<Op>
    requires n <= |calls|
  {
    if n == 0 then [] else OpsOf(calls, n - 1) + [OpOf(calls[n - 1])]
  }

  /** A Task as it is when it is submitted: nothing is known of the provider's side yet. */
  predicate Unstarted(t: Task) {
    t.artifacts == [] && t.remoteTaskId == "" && t.remoteContextId == "" && t.problem.None? &&
    t.lastRemoteObservedAt.None? && !t.cancelRequested && t.delivery.DeliveryPending?
  }

  /** Tasks change by the service's changes only, and are submitted unstarted. */
  predicate Proper(call: Call) {
    call.Other? ==>
      !call.op.ApplyTask? && (call.op.CreateTask? ==> Unstarted(call.op.task))
  }

  ghost predicate AllProper(calls: seq<Call>) {
    forall call :: call in calls ==> Proper(call)
  }

  /** The changes that the first n calls committed to the Task, in order. */
  function Changes(calls: seq<Call>, key: Key, n: nat): seq<TaskChanges.Change>
    requires n <= |calls|
  {
    if n == 0 then []
    else
      var earlier := Changes(calls, key, n - 1);
      var call := calls[n - 1];
      if call.Change? && call.key == key && Decide(Run(INITIAL, OpsOf(calls, n - 1)).mem, OpOf(call)).Commit?
      then earlier + [call.change] else earlier
  }

  // What a list of changes says about each field

  function Updates(cs: seq<TaskChanges.Change>): seq<ArtifactUpdate> {
    if cs == [] then []
    else
      var last := cs[|cs| - 1];
      Updates(cs[..|cs| - 1]) + if last.AddArtifact? then [last.update] else []
  }

  /** The observations of status among them. */
  function Statuses(cs: seq<TaskChanges.Change>): seq<Observation> {
    if cs == [] then []
    else
      var last := cs[|cs| - 1];
      Statuses(cs[..|cs| - 1]) + if last.ApplyStatus? then [last.observation] else []
  }

  /** The Task belongs to the one remote Task that any observation named. */
  ghost predicate NamedBy(id: string, os: seq<Observation>) {
    (forall o :: o in os && o.remoteTaskId != "" ==> o.remoteTaskId == id) &&
    (id != "" ==> exists o :: o in os && o.remoteTaskId == id)
  }

  /** It is in the context that the last observation to name one named. */
  ghost predicate InContext(id: string, os: seq<Observation>) {
    if forall o :: o in os ==> o.remoteContextId == "" then id == ""
    else exists i :: 0 <= i < |os| && os[i].remoteContextId == id != "" &&
                     forall j :: i < j < |os| ==> os[j].remoteContextId == ""
  }

  /** The latest time at which any observation was made. */
  ghost predicate LatestOf(time: Option<Time>, os: seq<Observation>) {
    match time
    case None => forall o :: o in os ==> o.remoteObservedAt.None?
    case Some(t) =>
      (exists o :: o in os && o.remoteObservedAt == Some(t)) &&
      forall o :: o in os && o.remoteObservedAt.Some? ==> o.remoteObservedAt.value <= t
  }

  predicate AsksToCancel(c: TaskChanges.Change) {
    c.RequestCancel? || (c.ApplyStatus? && c.observation.cancelRequested)
  }

  /** What a change says of the Task's problem: an observation without one clears it. */
  function ProblemIn(c: TaskChanges.Change): Option<Option<Problem>> {
    match c
    case StartDelivery => None
    case RequestCancel => None
    case AddArtifact(_, _) => None
    case ApplyStatus(o) => Some(o.problem)
    case EndDelivery(p) => Some(Some(p))
    case Disconnect(p) => Some(Some(p))
    case RecordProblem(_, p) => Some(Some(p))
  }

  /** What a change says of the delivery: begun and so unknown, rejected for certain, or acknowledged. */
  function DeliveryIn(c: TaskChanges.Change): Option<DeliveryState> {
    match c
    case StartDelivery => Some(DeliveryAmbiguous)
    case EndDelivery(p) => if p.ambiguous then None else Some(DeliveryPending)
    case ApplyStatus(_) => Some(DeliveryAcknowledged)
    case _ => None
  }

  function KindOf(c: TaskChanges.Change): string {
    match c
    case StartDelivery => "delivery.started"
    case EndDelivery(p) => if p.ambiguous then "delivery.ambiguous" else "delivery.rejected"
    case Disconnect(_) => "delivery.disconnected"
    case RequestCancel => "task.cancel_requested"
    case RecordProblem(kind, _) => kind
    case ApplyStatus(_) => "task.status"
    case AddArtifact(_, _) => "task.artifact"
  }

  function SourceOf(c: TaskChanges.Change): string {
    match c
    case ApplyStatus(o) => o.source
    case AddArtifact(_, source) => source
    case _ => "hub"
  }

  /** The event says what the change says; a change of status reports a state. */
  predicate Reports(e: Event, c: TaskChanges.Change) {
    e.kind == KindOf(c) && e.source == SourceOf(c) && e.problem == ProblemIn(c).GetOr(None) &&
    e.artifact == (if c.AddArtifact? then Some(c.update.artifact) else None) &&
    e.observedAt == (if c.ApplyStatus? then c.observation.remoteObservedAt else None) &&
    (e.state.Some? <==> c.ApplyStatus?)
  }

  /** The log has one event for the submission, and then one for each change, in order. */
  ghost predicate LogTells(events: seq<Event>, cs: seq<TaskChanges.Change>) {
    |events| == |cs| + 1 && forall i :: 0 <= i < |cs| ==> Reports(events[i + 1], cs[i])
  }

  /** The value is the last one said, or the one there was before anything was. */
  ghost predicate LastSaid<T(!new)>(value: T, first: T, cs: seq<TaskChanges.Change>,
                                    says: TaskChanges.Change -> Option<T>) {
    if forall c :: c in cs ==> says(c).None? then value == first
    else exists i :: 0 <= i < |cs| && says(cs[i]) == Some(value) && forall j :: i < j < |cs| ==> says(cs[j]).None?
  }

  ghost predicate CancelTold(cs: seq<TaskChanges.Change>, asked: bool) {
    asked <==> exists c :: c in cs && AsksToCancel(c)
  }

  ghost predicate Tells(cs: seq<TaskChanges.Change>, t: Task) {
    t.artifacts == MergeAll(Updates(cs)) && TellsStatus(cs, t) &&
    CancelTold(cs, t.cancelRequested) &&
    LastSaid(t.problem, None, cs, ProblemIn) && LastSaid(t.delivery, DeliveryPending, cs, DeliveryIn)
  }

  ghost predicate TellsStatus(cs: seq<TaskChanges.Change>, t: Task) {
    NamedBy(t.remoteTaskId, Statuses(cs)) && InContext(t.remoteContextId, Statuses(cs)) &&
    LatestOf(t.lastRemoteObservedAt, Statuses(cs))
  }

  // One more change

  lemma OneMoreChange(cs: seq<TaskChanges.Change>, c: TaskChanges.Change)
    ensures Updates(cs + [c]) == Updates(cs) + if c.AddArtifact? then [c.update] else []
    ensures Statuses(cs + [c]) == Statuses(cs) + if c.ApplyStatus? then [c.observation] else []
  {
    assert (cs + [c])[..|cs|] == cs;
  }

  lemma OneMoreMerge(us: seq<ArtifactUpdate>, u: ArtifactUpdate)
    ensures MergeAll(us + [u]) == Merge(MergeAll(us), u)
  {
    assert (us + [u])[..|us|] == us;
  }

  lemma OneMoreSaid<T(!new)>(value: T, first: T, cs: seq<TaskChanges.Change>, says: TaskChanges.Change -> Option<T>,
                             c: TaskChanges.Change)
    requires LastSaid(value, first, cs, says)
    ensures LastSaid(says(c).GetOr(value), first, cs + [c], says)
  {
    var more := cs + [c];
    assert more[|cs|] == c;
    assert forall d :: d in more <==> d in cs || d == c;
    if says(c).None? && exists d :: d in cs && says(d).Some? {
      var i :| 0 <= i < |cs| && says(cs[i]) == Some(value) && forall j :: i < j < |cs| ==> says(cs[j]).None?;
      assert says(more[i]) == Some(value) && forall j :: i < j < |more| ==> says(more[j]).None?;
    }
  }

  lemma OneMoreStatus(os: seq<Observation>, o: Observation, t: Task, now: Time)
    requires NamedBy(t.remoteTaskId, os) && InContext(t.remoteContextId, os) && LatestOf(t.lastRemoteObservedAt, os)
    requires Changed(ApplyStatus(o), t, now).Some?
    ensures var after := Changed(ApplyStatus(o), t, now).value.0;
            NamedBy(after.remoteTaskId, os + [o]) && InContext(after.remoteContextId, os + [o]) &&
            LatestOf(after.lastRemoteObservedAt, os + [o])
  {
    var after := Changed(ApplyStatus(o), t, now).value.0;
    OneMoreName(os, o, t.remoteTaskId, after.remoteTaskId);
    OneMoreContext(os, o, t.remoteContextId);
    OneMoreTime(os, o, t.lastRemoteObservedAt, after.lastRemoteObservedAt);
  }

  lemma OneMoreName(os: seq<Observation>, o: Observation, before: string, after: string)
    requires NamedBy(before, os) && after == (if o.remoteTaskId != "" then o.remoteTaskId else before)
    requires o.remoteTaskId != "" && before != "" ==> o.remoteTaskId == before
    ensures NamedBy(after, os + [o])
  {
    assert forall p :: p in os + [o] <==> p in os || p == o;
  }

  lemma OneMoreContext(os: seq<Observation>, o: Observation, before: string)
    requires InContext(before, os)
    ensures InContext(if o.remoteContextId != "" then o.remoteContextId else before, os + [o])
  {
    var more := os + [o];
    assert more[|os|] == o;
    assert forall p :: p in more <==> p in os || p == o;
    if o.remoteContextId == "" && exists p :: p in os && p.remoteContextId != "" {
      var i :| 0 <= i < |os| && os[i].remoteContextId == before != "" &&
               forall j :: i < j < |os| ==> os[j].remoteContextId == "";
      assert more[i].remoteContextId == before && forall j :: i < j < |more| ==> more[j].remoteContextId == "";
    }
  }

  lemma OneMoreTime(os: seq<Observation>, o: Observation, before: Option<Time>, after: Option<Time>)
    requires LatestOf(before, os)
    requires after ==
             if o.remoteObservedAt.Some? && !Older(o.remoteObservedAt, before) then o.remoteObservedAt else before
    ensures LatestOf(after, os + [o])
  {
    assert forall p :: p in os + [o] <==> p in os || p == o;
  }

  /** What a change makes of the fields that it says something about, that it leaves the others alone, and its event. */
  lemma ChangeSays(c: TaskChanges.Change, t: Task, now: Time)
    requires Changed(c, t, now).Some?
    ensures var after := Changed(c, t, now).value.0;
            after.artifacts == (if c.AddArtifact? then Merge(t.artifacts, c.update) else t.artifacts) &&
            after.cancelRequested == (t.cancelRequested || AsksToCancel(c)) &&
            after.problem == ProblemIn(c).GetOr(t.problem) && after.delivery == DeliveryIn(c).GetOr(t.delivery) &&
            (!c.ApplyStatus? ==>
               after.remoteTaskId == t.remoteTaskId && after.remoteContextId == t.remoteContextId &&
               after.lastRemoteObservedAt == t.lastRemoteObservedAt)
    ensures Reports(Changed(c, t, now).value.1, c)
    ensures Changed(c, t, now).value.0.updatedAt == now == Changed(c, t, now).value.1.createdAt
  {
  }

  lemma ChangeTellsStatus(cs: seq<TaskChanges.Change>, c: TaskChanges.Change, t: Task, now: Time)
    requires TellsStatus(cs, t) && Changed(c, t, now).Some?
    ensures TellsStatus(cs + [c], Changed(c, t, now).value.0)
  {
    OneMoreChange(cs, c);
    if c.ApplyStatus? {
      OneMoreStatus(Statuses(cs), c.observation, t, now);
    } else {
      ChangeSays(c, t, now);
      assert Statuses(cs + [c]) == Statuses(cs);
    }
  }

  lemma ChangeTellsArtifacts(cs: seq<TaskChanges.Change>, c: TaskChanges.Change, t: Task, now: Time)
    requires t.artifacts == MergeAll(Updates(cs)) && Changed(c, t, now).Some?
    ensures Changed(c, t, now).value.0.artifacts == MergeAll(Updates(cs + [c]))
  {
    ChangeSays(c, t, now);
    OneMoreChange(cs, c);
    if c.AddArtifact? {
      OneMoreMerge(Updates(cs), c.update);
    } else {
      assert Updates(cs + [c]) == Updates(cs);
    }
  }

  lemma OneMoreAsked(cs: seq<TaskChanges.Change>, c: TaskChanges.Change, asked: bool)
    requires CancelTold(cs, asked)
    ensures CancelTold(cs + [c], asked || AsksToCancel(c))
  {
    assert forall d :: d in cs + [c] <==> d in cs || d == c;
  }

  lemma ChangeTells(cs: seq<TaskChanges.Change>, c: TaskChanges.Change, t: Task, now: Time)
    requires Tells(cs, t) && Changed(c, t, now).Some?
    ensures Tells(cs + [c], Changed(c, t, now).value.0)
  {
    ChangeSays(c, t, now);
    ChangeTellsArtifacts(cs, c, t, now);
    ChangeTellsStatus(cs, c, t, now);
    OneMoreAsked(cs, c, t.cancelRequested);
    OneMoreSaid(t.problem, None, cs, ProblemIn, c);
    OneMoreSaid(t.delivery, DeliveryPending, cs, DeliveryIn, c);
  }

  // Every run

  /** The Task and its log after the changes. */
  ghost predicate Recorded(w: TaskStore, key: Key, cs: seq<TaskChanges.Change>) {
    if key in w.tasks then
      Tells(cs, w.tasks[key]) && LogTells(Get(w.events, key, []), cs)
    else cs == [] && Get(w.events, key, []) == []
  }

  lemma CreationRecorded(w: TaskStore, key: Key, task: Task, draft: Event, eventId: string)
    requires Recorded(w, key, []) && key !in w.tasks && task.ResourceKey() == key
    requires Unstarted(task)
    ensures var d := DecideCreateTask(w, task, draft, eventId);
            d.Commit? && Recorded(AddEvent(w, d.record.task, d.record.event), key, [])
  {
  }

  /** What the store commits for a change. */
  lemma ChangeCommitted(w: TaskStore, call: Call)
    requires call.Change? && Keyed(w)
    requires var op := OpOf(call); DecideApplyTask(w, op.key, op.expected, op.dedup, op.mutate, op.eventId).Commit?
    ensures var op := OpOf(call);
            var r := DecideApplyTask(w, op.key, op.expected, op.dedup, op.mutate, op.eventId).record;
            call.key in w.tasks && r.task.ResourceKey() == call.key &&
            var changed := Changed(call.change, w.tasks[call.key], call.now);
            changed.Some? && Reports(r.event, call.change) &&
            r.task == changed.value.0.(revision := r.task.revision, lastSequence := r.task.lastSequence)
  {
    var t := w.tasks[call.key];
    assert OpOf(call).mutate(t) == Changed(call.change, t, call.now);
    ChangeSays(call.change, t, call.now);
    ChangesMoveForward(call.change, call.now);
  }

  lemma LogGrows(w: TaskStore, task: Task, event: Event, key: Key, cs: seq<TaskChanges.Change>, c: TaskChanges.Change)
    requires task.ResourceKey() == key && LogTells(Get(w.events, key, []), cs) && Reports(event, c)
    ensures LogTells(Get(AddEvent(w, task, event).events, key, []), cs + [c])
  {
    var before, after := Get(w.events, key, []), Get(AddEvent(w, task, event).events, key, []);
    assert after == before + [event];
  }

  lemma ChangeRecorded(w: TaskStore, cs: seq<TaskChanges.Change>, call: Call)
    requires call.Change? && Keyed(w) && Recorded(w, call.key, cs)
    requires var op := OpOf(call); DecideApplyTask(w, op.key, op.expected, op.dedup, op.mutate, op.eventId).Commit?
    ensures var op := OpOf(call);
            var r := DecideApplyTask(w, op.key, op.expected, op.dedup, op.mutate, op.eventId).record;
            Recorded(AddEvent(w, r.task, r.event), call.key, cs + [call.change])
  {
    var op := OpOf(call);
    var r := DecideApplyTask(w, op.key, op.expected, op.dedup, op.mutate, op.eventId).record;
    ChangeCommitted(w, call);
    var t := w.tasks[call.key];
    ChangeTells(cs, call.change, t, call.now);
    StampKeepsTold(cs + [call.change], Changed(call.change, t, call.now).value.0, r.task);
    LogGrows(w, r.task, r.event, call.key, cs, call.change);
  }

  /** The store's counters say nothing of the provider's side. */
  lemma StampKeepsTold(cs: seq<TaskChanges.Change>, t: Task, stored: Task)
    requires Tells(cs, t) && stored == t.(revision := stored.revision, lastSequence := stored.lastSequence)
    ensures Tells(cs, stored)
  {
  }

  /** One call, on a store whose Task tells its past. */
  lemma CallRecorded(sys: System, cs: seq<TaskChanges.Change>, key: Key, call: Call)
    requires Recorded(sys.mem.work, key, cs) && Keyed(sys.mem.work) && Proper(call)
    requires Refines(Replay(sys.file), sys.mem, sys.pruned)
    ensures var more :=
              if call.Change? && call.key == key && Decide(sys.mem, OpOf(call)).Commit? then [call.change] else [];
            Recorded(Exec(sys, OpOf(call)).mem.work, key, cs + more)
  {
    var op := OpOf(call);
    WorkAfterExec(sys, op);
    if call.Change? && Decide(sys.mem, op).Commit? {
      ChangesMoveForward(call.change, call.now);
      if call.key == key {
        ChangeRecorded(sys.mem.work, cs, call);
      }
    } else if op.CreateTask? && Decide(sys.mem, op).Commit? && op.task.ResourceKey() == key {
      CreationRecorded(sys.mem.work, key, op.task, op.draft, op.eventId);
    }
    assert cs + [] == cs;
  }

  lemma {:induction false} CallsAreServiceRuns(calls: seq<Call>, n: nat)
    requires AllProper(calls) && n <= |calls|
    ensures ServiceRun(OpsOf(calls, n))
  {
    if n > 0 {
      CallsAreServiceRuns(calls, n - 1);
      assert Proper(calls[n - 1]);
    }
  }

  lemma NothingRecorded(key: Key)
    ensures Recorded(EMPTY.work, key, [])
  {
  }

  lemma NextRecorded(calls: seq<Call>, key: Key, n: nat)
    requires AllProper(calls) && n < |calls|
    requires Recorded(Run(INITIAL, OpsOf(calls, n)).mem.work, key, Changes(calls, key, n))
    ensures Recorded(Run(INITIAL, OpsOf(calls, n + 1)).mem.work, key, Changes(calls, key, n + 1))
  {
    var ops, cs, call := OpsOf(calls, n), Changes(calls, key, n), calls[n];
    CallsAreServiceRuns(calls, n);
    ServiceRunsStayKeyed(ops);
    ReplayRestoresMemory(ops);
    RunAppend(INITIAL, ops, OpOf(call));
    CallRecorded(Run(INITIAL, ops), cs, key, call);
    assert cs + [] == cs;
  }

  /**
   A Task tells its past, over every run of the service: its artifacts are the updates committed to it, merged in the
   order of its log; it belongs to the one remote Task that was ever named, in the context named last; it has seen the
   latest observation time, is to be canceled if anyone asked, and has the problem and the delivery state that were
   reported last. And its log has one event for each change, in order, which says what the change says.
   */
  lemma {:induction false} TaskTellsItsPast(calls: seq<Call>, key: Key, n: nat)
    requires AllProper(calls) && n <= |calls|
    ensures Recorded(Run(INITIAL, OpsOf(calls, n)).mem.work, key, Changes(calls, key, n))
  {
    if n == 0 {
      NothingRecorded(key);
    } else {
      TaskTellsItsPast(calls, key, n - 1);
      NextRecorded(calls, key, n - 1);
    }
  }

  /** So each artifact of a Task is what its own updates amount to, and they are in the order of first appearance. */
  lemma TaskArtifactsAreFolds(calls: seq<Call>, key: Key)
    requires AllProper(calls) && key in Run(INITIAL, OpsOf(calls, |calls|)).mem.work.tasks
    ensures var artifacts := Run(INITIAL, OpsOf(calls, |calls|)).mem.work.tasks[key].artifacts;
            var us := Updates(Changes(calls, key, |calls|));
            IdsOf(artifacts) == FirstAppearances(us) &&
            forall i :: 0 <= i < |artifacts| ==>
              Of(us, artifacts[i].id) != [] && artifacts[i] == Folded(Of(us, artifacts[i].id))
  {
    TaskTellsItsPast(calls, key, |calls|);
    var us := Updates(Changes(calls, key, |calls|));
    IdsInFirstAppearanceOrder(us);
    forall i | 0 <= i < |MergeAll(us)|
      ensures var a := MergeAll(us)[i]; Of(us, a.id) != [] && a == Folded(Of(us, a.id))
    {
      MergedIsFoldPerId(us, i);
    }
  }

  /** Every run of the service that submits Tasks unstarted is such a sequence of calls. */
  lemma {:induction false} RunsAreCalls(ops: seq<Op>) returns (calls: seq<Call>)
    requires ServiceRun(ops)
    requires forall op :: op in ops && op.CreateTask? ==> Unstarted(op.task)
    ensures AllProper(calls) && |calls| == |ops| && OpsOf(calls, |calls|) == ops
  {
    calls := [];
    if ops != [] {
      var n := |ops| - 1;
      var earlier := RunsAreCalls(ops[..n]);
      var op := ops[n];
      var last := Other(op);
      if op.ApplyTask? {
        assert op in ops && ServiceOp(op);
        var c, now :| op.mutate == Mutator(c, now);
        last := Change(op.key, op.expected, op.dedup, c, now, op.eventId);
      }
      calls := earlier + [last];
      OpsOfPrefix(earlier, last, n);
      assert ops == ops[..n] + [op];
    }
  }

  lemma {:induction false} OpsOfPrefix(calls: seq<Call>, last: Call, n: nat)
    requires n <= |calls|
    ensures OpsOf(calls + [last], n) == OpsOf(calls, n)
  {
    if n > 0 {
      OpsOfPrefix(calls, last, n - 1);
    }
  }
}
