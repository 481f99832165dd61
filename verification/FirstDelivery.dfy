/**
 What a first accepted delivery makes of its Task (internal/hub/service.go, applyObservation): the status it reports,
 and the artifacts it brings, merged in order.
 */
module FirstDelivery {
  import opened Wrappers
  import opened Model
  import opened Journal
  import opened JournalOps
  import opened ArtifactMerge
  import opened TaskChanges
  import opened ObservationProtocol
  import opened Folds

  /** The observation says something besides its artifacts. */
  predicate SaysSomething(o: Observation) {
    o.state != Unknown || o.remoteTaskId != "" || o.problem != None || o.cancelRequested
  }

  /** The Task is as it was but for its artifacts and clocks. */
  predicate SameStatus(a: Task, b: Task) {
    b.state == a.state && b.remoteTaskId == a.remoteTaskId && b.remoteContextId == a.remoteContextId &&
    b.problem == a.problem && b.delivery == a.delivery && b.cancelRequested == a.cancelRequested &&
    b.lastRemoteObservedAt == a.lastRemoteObservedAt
  }

  /** The Task has taken over what the observation says. */
  predicate StatusTaken(a: Task, b: Task, o: Observation) {
    b.delivery == DeliveryAcknowledged && b.problem == o.problem &&
    b.remoteTaskId == (if o.remoteTaskId == "" then a.remoteTaskId else o.remoteTaskId) &&
    b.remoteContextId == (if o.remoteContextId == "" then a.remoteContextId else o.remoteContextId) &&
    (b.cancelRequested <==> a.cancelRequested || o.cancelRequested) &&
    b.state == (if News(a, o) then o.state else a.state) &&
    (o.remoteObservedAt.None? ==> b.lastRemoteObservedAt == a.lastRemoteObservedAt) &&
    (o.remoteObservedAt.Some? ==>
       b.lastRemoteObservedAt == Some(if Older(o.remoteObservedAt, a.lastRemoteObservedAt)
                                      then a.lastRemoteObservedAt.value else o.remoteObservedAt.value))
  }

  predicate Taken(a: Task, b: Task, o: Observation) {
    if SaysSomething(o) then StatusTaken(a, b, o) else SameStatus(a, b)
  }

  ghost predicate NewKeys(steps: seq<SubStep>, dedup: set<string>) {
    forall i :: 0 <= i < |steps| ==> steps[i].dedup !in dedup
  }

  /** How far a first delivery of the observation has come after n of its sub-steps. */
  ghost predicate TakenTo(v: View, w: View, o: Observation, base: string, us: seq<ArtifactUpdate>, n: nat)
    requires n <= |SubSteps(o, base)|
  {
    var first := |StatusSteps(o, base)|;
    if n < first then w == v
    else Taken(v.task, w.task, o) && w.task.artifacts == MergeAll(us + o.artifacts[..n - first])
  }

  lemma StatusStepTakes(v: View, o: Observation, base: string)
    requires ReportsStatus(o) && (base + ":status") !in v.dedup
    requires Advance(v, SubStep(base + ":status", ApplyStatus(o))).Some?
    ensures var w := Advance(v, SubStep(base + ":status", ApplyStatus(o))).value;
            Taken(v.task, w.task, o) && w.task.artifacts == v.task.artifacts
  {
  }

  lemma ArtifactStepTakes(v: View, w: View, o: Observation, base: string, us: seq<ArtifactUpdate>, i: nat)
    requires i < |o.artifacts| && ArtifactStep(o, base, i).dedup !in w.dedup
    requires Taken(v.task, w.task, o) && w.task.artifacts == MergeAll(us + o.artifacts[..i])
    ensures var next := Advance(w, ArtifactStep(o, base, i));
            next.Some? && Taken(v.task, next.value.task, o) &&
            next.value.task.artifacts == MergeAll(us + o.artifacts[..i + 1])
  {
    var merged := us + o.artifacts[..i + 1];
    assert merged[..|merged| - 1] == us + o.artifacts[..i];
    assert merged[|merged| - 1] == o.artifacts[i];
  }

  /** The keys that the first n sub-steps leave. */
  lemma {:induction false} KeysSoFar(v: View, steps: seq<SubStep>, n: nat)
    requires n <= |steps| && DeliverViewTo(v, steps, n).1
    ensures DeliverViewTo(v, steps, n).0.dedup == v.dedup + KeysTo(steps, n)
  {
    if n > 0 {
      KeysSoFar(v, steps, n - 1);
      assert KeysTo(steps, n) == KeysTo(steps, n - 1) + {steps[n - 1].dedup};
    }
  }

  lemma StepKeyIsNew(v: View, steps: seq<SubStep>, n: nat)
    requires n < |steps| && DistinctKeys(steps) && NewKeys(steps, v.dedup) && DeliverViewTo(v, steps, n).1
    ensures steps[n].dedup !in DeliverViewTo(v, steps, n).0.dedup
  {
    KeysSoFar(v, steps, n);
  }

  lemma NextTaken(v: View, w: View, o: Observation, base: string, us: seq<ArtifactUpdate>, n: nat)
    requires n < |SubSteps(o, base)| && TakenTo(v, w, o, base, us, n) && v.task.artifacts == MergeAll(us)
    requires SubSteps(o, base)[n].dedup !in w.dedup && Advance(w, SubSteps(o, base)[n]).Some?
    ensures TakenTo(v, Advance(w, SubSteps(o, base)[n]).value, o, base, us, n + 1)
  {
    var first := |StatusSteps(o, base)|;
    if n < first {
      StatusStepTakes(v, o, base);
      assert us + o.artifacts[..0] == us;
    } else {
      ArtifactStepTakes(v, w, o, base, us, n - first);
    }
  }

  lemma StartTaken(v: View, o: Observation, base: string, us: seq<ArtifactUpdate>)
    requires v.task.artifacts == MergeAll(us)
    ensures TakenTo(v, v, o, base, us, 0)
  {
    assert us + o.artifacts[..0] == us;
  }

  lemma {:induction false} DeliveryTakes(v: View, o: Observation, base: string, us: seq<ArtifactUpdate>, n: nat)
    requires n <= |SubSteps(o, base)| && NewKeys(SubSteps(o, base), v.dedup) && v.task.artifacts == MergeAll(us)
    requires DeliverViewTo(v, SubSteps(o, base), n).1
    ensures TakenTo(v, DeliverViewTo(v, SubSteps(o, base), n).0, o, base, us, n)
  {
    var steps := SubSteps(o, base);
    if n == 0 {
      StartTaken(v, o, base, us);
    } else {
      DeliveryTakes(v, o, base, us, n - 1);
      SubStepKeysDistinct(o, base);
      StepKeyIsNew(v, steps, n - 1);
      NextTaken(v, DeliverViewTo(v, steps, n - 1).0, o, base, us, n - 1);
    }
  }

  /** The observation that is delivered has every artifact moved, and is else the one that came. */
  lemma {:induction false} EveryArtifactIsMoved(updates: seq<ArtifactUpdate>, move: (nat, Artifact) -> Option<Artifact>)
    ensures Externalized(updates, move).Some?
            <==> forall i :: 0 <= i < |updates| ==> move(i, updates[i].artifact).Some?
    ensures Externalized(updates, move).Some? ==>
              var moved := Externalized(updates, move).value;
              |moved| == |updates| &&
              forall i :: 0 <= i < |updates| ==>
                Some(moved[i].artifact) == move(i, updates[i].artifact) &&
                moved[i] == updates[i].(artifact := moved[i].artifact)
  {
    if updates != [] {
      EveryArtifactIsMoved(updates[..|updates| - 1], move);
    }
  }

  /**
   A first accepted delivery to a Task whose artifacts are the merge of some updates: the Task takes over everything
   that the observation says, and its artifacts become the merge of those updates and the observation's, in order.
   */
  lemma FirstDeliveryUpdatesTask(sys: System, key: Key, o: Observation, base: string, env: Env,
                                 us: seq<ArtifactUpdate>)
    requires Healthy(sys) && key in sys.mem.work.tasks && sys.mem.work.tasks[key].artifacts == MergeAll(us)
    requires NewKeys(SubSteps(o, base), Get(sys.mem.work.dedupKeys, key, {}))
    requires Deliver(sys, key, SubSteps(o, base), env).1
    ensures var before, after := sys.mem.work.tasks, Deliver(sys, key, SubSteps(o, base), env).0.mem.work.tasks;
            key in after && Taken(before[key], after[key], o) &&
            after[key].artifacts == MergeAll(us + o.artifacts)
  {
    var steps, v := SubSteps(o, base), ViewOf(sys.mem.work, key);
    SubStepKeysDistinct(o, base);
    DeliveryAdvancesView(sys, key, steps, env, |steps|);
    DeliveryTakes(v, o, base, us, |steps|);
    assert o.artifacts[..|o.artifacts|] == o.artifacts;
    var after := Deliver(sys, key, steps, env).0.mem.work;
    assert Timeless(after.tasks[key]) == DeliverView(v, steps).0.task;
  }
}
