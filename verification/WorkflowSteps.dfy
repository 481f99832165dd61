/**
 The steps of a workflow aggregate (internal/orchestration/workflow.go): which are ready or blocked, what one recorded
 change makes of them, and why an accepted graph never deadlocks.
 */
module WorkflowSteps {
  import opened Wrappers
  import opened Model
  import opened WorkflowGraph

  /** The deduplication keys of the aggregate's step changes. */
  datatype Mark =
    | Started(step: string)
    | Blocked(step: string)
    | Observed(step: string, revision: nat, state: TaskState)

  datatype Aggregate = Aggregate(steps: seq<WorkflowStep>, state: WorkflowState, marks: set<Mark>)

  /** What SubmitTask answers. */
  datatype Outcome = SubmitFailed | Submitted(taskId: string, agentId: string, state: TaskState)

  /** Not submitted, not blocked, not failed: still to be scheduled. */
  predicate Waiting(s: WorkflowStep) {
    s.taskId == "" && s.state.Unknown?
  }

  function Find(steps: seq<WorkflowStep>, id: string): Option<WorkflowStep> {
    if steps == [] then None
    else if steps[0].id == id then Some(steps[0])
    else Find(steps[1..], id)
  }

  predicate DependencyTerminal(steps: seq<WorkflowStep>, id: string) {
    Find(steps, id).Some? && Find(steps, id).value.state.Terminal()
  }

  predicate DependencyCompleted(steps: seq<WorkflowStep>, id: string) {
    Find(steps, id).Some? && Find(steps, id).value.state.Completed?
  }

  predicate AllTerminal(steps: seq<WorkflowStep>, s: WorkflowStep) {
    forall d :: d in s.dependsOn ==> DependencyTerminal(steps, d)
  }

  predicate AllCompleted(steps: seq<WorkflowStep>, s: WorkflowStep) {
    forall d :: d in s.dependsOn ==> DependencyCompleted(steps, d)
  }

  /** To be submitted now: dependencies are terminal, and all COMPLETED if the step is required. */
  predicate IsReady(steps: seq<WorkflowStep>, i: nat)
    requires i < |steps|
  {
    Waiting(steps[i]) && AllTerminal(steps, steps[i]) && (steps[i].required ==> AllCompleted(steps, steps[i]))
  }

  /** To be rejected now: required, and some dependency ended without completing. */
  predicate IsBlocked(steps: seq<WorkflowStep>, i: nat)
    requires i < |steps|
  {
    Waiting(steps[i]) && AllTerminal(steps, steps[i]) && steps[i].required && !AllCompleted(steps, steps[i])
  }

  function StateForSteps(steps: seq<WorkflowStep>): WorkflowState {
    if exists s :: s in steps && s.state.Waiting() then WorkflowWaitingInput
    else if forall s :: s in steps ==> s.state.Completed? then WorkflowCompleted
    else if forall s :: s in steps ==> s.state.Terminal() then
      if exists s :: s in steps && s.state.Completed? then WorkflowPartiallyFailed else WorkflowFailed
    else WorkflowRunning
  }

  method WorkflowStateForSteps(steps: seq<WorkflowStep>) returns (r: WorkflowState)
    ensures r == StateForSteps(steps)
  {
    var allTerminal, allCompleted, anyFailure, anyInput, anyCompleted := true, true, false, false, false;
    var i := 0;
    while i < |steps|
      invariant 0 <= i <= |steps|
      invariant allTerminal <==> forall k :: 0 <= k < i ==> steps[k].state.Terminal()
      invariant allCompleted <==> forall k :: 0 <= k < i ==> steps[k].state.Completed?
      invariant anyCompleted <==> exists k :: 0 <= k < i && steps[k].state.Completed?
      invariant anyInput <==> exists k :: 0 <= k < i && steps[k].state.Waiting()
      invariant anyFailure <==> exists k :: 0 <= k < i && steps[k].state.Unsuccessful()
    {
      allTerminal := allTerminal && steps[i].state.Terminal();
      allCompleted := allCompleted && steps[i].state.Completed?;
      anyCompleted := anyCompleted || steps[i].state.Completed?;
      anyInput := anyInput || steps[i].state.Waiting();
      anyFailure := anyFailure || steps[i].state.Unsuccessful();
      i := i + 1;
    }
    if anyInput {
      return WorkflowWaitingInput;
    }
    if allTerminal && allCompleted {
      return WorkflowCompleted;
    }
    if allTerminal && anyFailure {
      return if anyCompleted then WorkflowPartiallyFailed else WorkflowFailed;
    }
    return WorkflowRunning;
  }

  // The three step changes, each under its deduplication key

  function ApplyBlocked(a: Aggregate, i: nat): Aggregate
    requires i < |a.steps|
  {
    if Blocked(a.steps[i].id) in a.marks then a
    else
      var steps := a.steps[i := a.steps[i].(state := Rejected)];
      Aggregate(steps, StateForSteps(steps), a.marks + {Blocked(a.steps[i].id)})
  }

  function ApplyStart(a: Aggregate, i: nat, outcome: Outcome): Aggregate
    requires i < |a.steps|
  {
    if Started(a.steps[i].id) in a.marks then a
    else
      var tried := a.steps[i].(attempt := a.steps[i].attempt + 1);
      var step := match outcome
                  case SubmitFailed => tried.(state := Failed)
                  case Submitted(taskId, agentId, state) =>
                    tried.(taskId := taskId, agentId := agentId, state := state);
      var steps := a.steps[i := step];
      Aggregate(steps, StateForSteps(steps), a.marks + {Started(a.steps[i].id)})
  }

  function ApplyObserved(a: Aggregate, i: nat, state: TaskState, revision: nat): Aggregate
    requires i < |a.steps|
  {
    var mark := Observed(a.steps[i].id, revision, state);
    if mark in a.marks then a
    else
      var steps := a.steps[i := a.steps[i].(state := state)];
      Aggregate(steps, StateForSteps(steps), a.marks + {mark})
  }

  // Invariants

  ghost predicate DistinctIds(steps: seq<WorkflowStep>) {
    forall i, j :: 0 <= i < j < |steps| ==> steps[i].id != steps[j].id
  }

  /** A recorded start or block means the step has left the waiting set. */
  ghost predicate MarksLeave(a: Aggregate) {
    forall i :: 0 <= i < |a.steps| ==>
      (Started(a.steps[i].id) in a.marks || Blocked(a.steps[i].id) in a.marks ==> !Waiting(a.steps[i]))
  }

  /** A step without a Task is still unscheduled, failed to submit, or was blocked. */
  ghost predicate TasklessSteps(steps: seq<WorkflowStep>) {
    forall i :: 0 <= i < |steps| && steps[i].taskId == "" ==>
      steps[i].state.Unknown? || steps[i].state.Failed? || steps[i].state.Rejected?
  }

  /** PENDING until a step moves, the state of the steps afterwards. */
  ghost predicate StateFollowsSteps(a: Aggregate) {
    a.state == StateForSteps(a.steps) ||
    (a.state == WorkflowPending && forall s :: s in a.steps ==> Waiting(s))
  }

  ghost predicate Sound(a: Aggregate) {
    DistinctIds(a.steps) && MarksLeave(a) && TasklessSteps(a.steps) && StateFollowsSteps(a)
  }

  /** The same steps: only their progress differs, and none returns to the waiting set. */
  ghost predicate Progressed(before: seq<WorkflowStep>, after: seq<WorkflowStep>) {
    |before| == |after| &&
    forall i :: 0 <= i < |before| ==>
      after[i].id == before[i].id && after[i].dependsOn == before[i].dependsOn &&
      after[i].required == before[i].required && (Waiting(after[i]) ==> Waiting(before[i]))
  }

  ghost function WaitingSet(steps: seq<WorkflowStep>): set<nat> {
    set i: nat | i < |steps| && Waiting(steps[i])
  }

  lemma StepChanged(a: Aggregate, b: Aggregate, i: nat)
    requires Sound(a) && i < |a.steps| && |b.steps| == |a.steps|
    requires forall j :: 0 <= j < |a.steps| && j != i ==> b.steps[j] == a.steps[j]
    requires b.steps[i].id == a.steps[i].id && b.steps[i].dependsOn == a.steps[i].dependsOn &&
             b.steps[i].required == a.steps[i].required
    requires !Waiting(b.steps[i])
    requires b.steps[i].taskId == "" ==> b.steps[i].state.Failed? || b.steps[i].state.Rejected?
    requires forall m :: m in b.marks ==> m in a.marks || m.step == a.steps[i].id
    requires b.state == StateForSteps(b.steps)
    ensures Sound(b) && Progressed(a.steps, b.steps)
    ensures WaitingSet(b.steps) == WaitingSet(a.steps) - {i}
  {
  }

  lemma BlockedKeeps(a: Aggregate, i: nat)
    requires Sound(a) && i < |a.steps| && Waiting(a.steps[i])
    ensures var b := ApplyBlocked(a, i);
            Sound(b) && Progressed(a.steps, b.steps) && WaitingSet(b.steps) == WaitingSet(a.steps) - {i}
  {
    StepChanged(a, ApplyBlocked(a, i), i);
  }

  lemma StartKeeps(a: Aggregate, i: nat, outcome: Outcome)
    requires Sound(a) && i < |a.steps| && Waiting(a.steps[i])
    requires outcome.Submitted? ==> outcome.taskId != ""
    ensures var b := ApplyStart(a, i, outcome);
            Sound(b) && Progressed(a.steps, b.steps) && WaitingSet(b.steps) == WaitingSet(a.steps) - {i}
  {
    StepChanged(a, ApplyStart(a, i, outcome), i);
  }

  lemma ObservedKeeps(a: Aggregate, i: nat, state: TaskState, revision: nat)
    requires Sound(a) && i < |a.steps| && a.steps[i].taskId != ""
    ensures var b := ApplyObserved(a, i, state, revision);
            Sound(b) && Progressed(a.steps, b.steps) && WaitingSet(b.steps) == WaitingSet(a.steps)
  {
    var b := ApplyObserved(a, i, state, revision);
    if Observed(a.steps[i].id, revision, state) !in a.marks {
      StepChanged(a, b, i);
    }
    assert WaitingSet(b.steps) == WaitingSet(a.steps);
  }

  lemma ProgressedTransitive(a: seq<WorkflowStep>, b: seq<WorkflowStep>, c: seq<WorkflowStep>)
    requires Progressed(a, b) && Progressed(b, c)
    ensures Progressed(a, c)
  {
  }

  // Deadlock freedom

  lemma {:induction false} FindInSteps(steps: seq<WorkflowStep>, id: string)
    ensures Find(steps, id).Some? <==> id in StepIds(steps)
    ensures Find(steps, id).Some? ==> Find(steps, id).value in steps && Find(steps, id).value.id == id
  {
    if steps != [] {
      FindInSteps(steps[1..], id);
      assert forall s :: s in steps <==> s == steps[0] || s in steps[1..];
      assert steps[0] in steps;
    }
  }

  /** Every Task the workflow started has ended. */
  ghost predicate TasksEnded(steps: seq<WorkflowStep>) {
    forall i :: 0 <= i < |steps| && steps[i].taskId != "" ==> steps[i].state.Terminal()
  }

  lemma {:induction false} LowestWaiting(steps: seq<WorkflowStep>, rank: map<string, nat>, i: nat) returns (low: nat)
    requires Ranked(steps, rank) && i < |steps| && Waiting(steps[i])
    ensures low < |steps| && Waiting(steps[low])
    ensures forall j :: 0 <= j < |steps| && steps[j].id in rank && Waiting(steps[j]) ==>
              steps[low].id in rank && rank[steps[low].id] <= rank[steps[j].id]
    decreases if steps[i].id in rank then rank[steps[i].id] else 0
  {
    assert steps[i] in steps;
    if j :| 0 <= j < |steps| && steps[j].id in rank && Waiting(steps[j]) && rank[steps[j].id] < rank[steps[i].id] {
      low := LowestWaiting(steps, rank, j);
    } else {
      low := i;
    }
  }

  /**
   An accepted graph never deadlocks: if some step is still waiting, then either a started Task has not
   ended, or some step is ready or blocked and will leave the waiting set in the next pass.
   */
  lemma SomethingMoves(steps: seq<WorkflowStep>, i: nat) returns (j: nat)
    requires AllKnown(steps) && Acyclic(steps) && TasklessSteps(steps)
    requires i < |steps| && Waiting(steps[i]) && TasksEnded(steps)
    ensures j < |steps| && (IsReady(steps, j) || IsBlocked(steps, j))
  {
    var rank: map<string, nat> :| Ranked(steps, rank);
    j := LowestWaiting(steps, rank, i);
    assert steps[j] in steps;
    forall d | d in steps[j].dependsOn ensures DependencyTerminal(steps, d) {
      FindInSteps(steps, d);
      var dep := Find(steps, d).value;
      var k :| 0 <= k < |steps| && steps[k] == dep;
      assert rank[d] < rank[steps[j].id];
      assert !Waiting(steps[k]);
    }
  }

  lemma NothingToDo(steps: seq<WorkflowStep>)
    requires AllKnown(steps) && Acyclic(steps) && TasklessSteps(steps)
    requires forall i: nat :: i < |steps| ==> !IsReady(steps, i) && !IsBlocked(steps, i)
    ensures WaitingSet(steps) == {} || !TasksEnded(steps)
  {
    if WaitingSet(steps) != {} && TasksEnded(steps) {
      var waiting :| waiting in WaitingSet(steps);
      var j := SomethingMoves(steps, waiting);
    }
  }

  /** Progress changes neither the steps' names nor their dependencies. */
  lemma GraphKept(before: seq<WorkflowStep>, after: seq<WorkflowStep>)
    requires Progressed(before, after) && AllKnown(before) && Acyclic(before)
    ensures AllKnown(after) && Acyclic(after)
  {
    forall s, d | s in after && d in s.dependsOn ensures d in StepIds(after) {
      var i :| 0 <= i < |after| && after[i] == s;
      assert before[i] in before && d in before[i].dependsOn;
      assert d in StepIds(before);
      var t :| t in before && t.id == d;
      var j :| 0 <= j < |before| && before[j] == t;
      assert after[j] in after && after[j].id == d;
    }
    var rank: map<string, nat> :| Ranked(before, rank);
    forall s | s in after ensures s.id in rank && forall d :: d in s.dependsOn ==> d in rank && rank[d] < rank[s.id] {
      var i :| 0 <= i < |after| && after[i] == s;
      assert before[i] in before;
    }
    assert Ranked(after, rank);
  }

  // What a change of one step leaves as it was

  /** The same names, and what had ended stays as it ended. */
  ghost predicate EndsStay(before: seq<WorkflowStep>, after: seq<WorkflowStep>) {
    |before| == |after| &&
    forall k :: 0 <= k < |before| ==>
      after[k].id == before[k].id && (before[k].state.Terminal() ==> after[k].state == before[k].state)
  }

  lemma {:induction false} FindKeepsEnd(before: seq<WorkflowStep>, after: seq<WorkflowStep>, id: string)
    requires EndsStay(before, after)
    ensures DependencyTerminal(before, id) ==>
              DependencyTerminal(after, id) && (DependencyCompleted(after, id) <==> DependencyCompleted(before, id))
  {
    if before != [] && before[0].id != id {
      FindKeepsEnd(before[1..], after[1..], id);
    }
  }

  /** A step whose dependencies have ended finds them as they were. */
  lemma DependenciesKept(before: seq<WorkflowStep>, after: seq<WorkflowStep>, s: WorkflowStep)
    requires EndsStay(before, after) && AllTerminal(before, s)
    ensures AllTerminal(after, s) && (AllCompleted(after, s) <==> AllCompleted(before, s))
  {
    forall d | d in s.dependsOn
      ensures DependencyTerminal(after, d) && (DependencyCompleted(after, d) <==> DependencyCompleted(before, d))
    {
      FindKeepsEnd(before, after, d);
    }
  }

  /** So it stays ready or blocked while other steps move on. */
  lemma ReadinessKept(before: seq<WorkflowStep>, after: seq<WorkflowStep>, i: nat)
    requires EndsStay(before, after) && i < |before| && after[i] == before[i]
    ensures IsReady(before, i) ==> IsReady(after, i)
    ensures IsBlocked(before, i) ==> IsBlocked(after, i)
  {
    if AllTerminal(before, before[i]) {
      DependenciesKept(before, after, before[i]);
    }
  }
}
