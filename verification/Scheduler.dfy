/**
 The dependency scheduler (internal/orchestration/workflow.go, submitWorkflowReady and the calls around
 it). The provider is an oracle: whatever it answers, the coordinator makes only moves that ScheduleRuns allows, the
 loop terminates, and an accepted graph never deadlocks.
 */
module Scheduler {
  import opened Wrappers
  import opened Model
  import opened TaskStates
  import opened WorkflowGraph
  import opened WorkflowSteps
  import opened ScheduleRuns
  import opened Worlds

  method CheckDependencies(steps: seq<WorkflowStep>, step: WorkflowStep) returns (allTerminal: bool, failed: bool)
    ensures allTerminal <==> AllTerminal(steps, step)
    ensures allTerminal ==> (failed <==> !AllCompleted(steps, step))
  {
    allTerminal, failed := true, false;
    var i := 0;
    while i < |step.dependsOn|
      invariant 0 <= i <= |step.dependsOn| && allTerminal
      invariant forall k :: 0 <= k < i ==> DependencyTerminal(steps, step.dependsOn[k])
      invariant failed <==> exists k :: 0 <= k < i && !DependencyCompleted(steps, step.dependsOn[k])
    {
      var dependency := Find(steps, step.dependsOn[i]);
      if dependency.None? || !dependency.value.state.Terminal() {
        assert step.dependsOn[i] in step.dependsOn;
        return false, failed;
      }
      if !dependency.value.state.Completed? {
        failed := true;
      }
      i := i + 1;
    }
    if failed {
      ghost var k :| 0 <= k < |step.dependsOn| && !DependencyCompleted(steps, step.dependsOn[k]);
      assert step.dependsOn[k] in step.dependsOn;
    } else {
      assert forall d :: d in step.dependsOn ==> DependencyCompleted(steps, d);
    }
  }

  /** An accepted submission names its Task. */
  type Answer = o: Outcome | o.Submitted? ==> o.taskId != "" witness SubmitFailed

  /** The service and the provider behind it, as one workflow sees them: the answer to each submission in turn. */
  class Provider {
    const answers: nat -> Answer
    /** The steps submitted so far. */
    var calls: seq<nat>

    constructor (answers: nat -> Answer)
      ensures this.answers == answers && calls == []
    {
      this.answers := answers;
      calls := [];
    }

    method SubmitTask(step: nat) returns (outcome: Answer)
      modifies this
      ensures calls == old(calls) + [step] && outcome == answers(|old(calls)|)
    {
      outcome := answers(|calls|);
      calls := calls + [step];
    }
  }

  /** What a whole call guarantees, for the theorems about sequences of calls. */
  ghost predicate Round(before: seq<WorkflowStep>, after: seq<WorkflowStep>) {
    Progressed(before, after) && WaitingSet(after) <= WaitingSet(before) &&
    (WaitingSet(before) != {} && TasksEnded(before) ==> |WaitingSet(after)| < |WaitingSet(before)|)
  }

  /** The moves of a scheduling call: it rejects, submits and records, but observes nothing. */
  ghost predicate Schedules(before: seq<Move>, after: seq<Move>) {
    before <= after && forall n :: |before| <= n < |after| ==> !after[n].Observe?
  }

  ghost predicate OnlyRejects(before: seq<Move>, after: seq<Move>) {
    before <= after && forall n :: |before| <= n < |after| ==> after[n].Reject?
  }

  ghost predicate OnlyObserves(before: seq<Move>, after: seq<Move>) {
    before <= after && forall n :: |before| <= n < |after| ==> after[n].Observe?
  }

  ghost predicate NothingReady(steps: seq<WorkflowStep>) {
    forall i: nat :: i < |steps| ==> !IsReady(steps, i)
  }

  lemma IndicesAtMost(xs: seq<nat>)
    ensures |Indices(xs)| <= |xs|
  {
    if xs != [] {
      var n := |xs| - 1;
      IndicesAtMost(xs[..n]);
      assert xs == xs[..n] + [xs[n]];
      assert Indices(xs) == Indices(xs[..n]) + {xs[n]};
    }
  }

  /** What holds at every point of a legal run from an accepted definition. */
  lemma LedIsGood(origin: seq<WorkflowStep>, moves: seq<Move>, w: World, bound: nat)
    requires Accepted(origin) && Leads(Fresh(origin), moves, Moves(bound), w)
    ensures Good(w, origin) && AllKnown(w.aggregate.steps) && Acyclic(w.aggregate.steps)
  {
    assert Reaches(Fresh(origin), w, Moves(bound));
    ReachableIsGood(origin, w, bound);
    GraphKept(origin, w.aggregate.steps);
  }

  lemma OneMoreMove(origin: seq<WorkflowStep>, moves: seq<Move>, w: World, bound: nat, m: Move)
    requires Leads(Fresh(origin), moves, Moves(bound), w) && Legal(w, m, bound)
    ensures Leads(Fresh(origin), moves + [m], Moves(bound), Moved(w, m, bound))
  {
    OneMoreLeads(Fresh(origin), moves, Moves(bound), w, m, Moved(w, m, bound));
  }

  // What a call records of its observations

  /** The states that Tasks with an answer are seen in, recorded for the first n steps. */
  function UpdatedTo(a: Aggregate, seen: nat -> Option<(TaskState, nat)>, n: nat): (b: Aggregate)
    requires n <= |a.steps|
    ensures |b.steps| == |a.steps|
  {
    if n == 0 then a
    else
      var b := UpdatedTo(a, seen, n - 1);
      match seen(n - 1)
      case None => b
      case Some((taskState, revision)) =>
        if b.steps[n - 1].taskId == "" then b else ApplyObserved(b, n - 1, taskState, revision)
  }

  function Updated(a: Aggregate, seen: nat -> Option<(TaskState, nat)>): Aggregate {
    UpdatedTo(a, seen, |a.steps|)
  }

  /** Only waiting Tasks are resumed. */
  function Resuming(steps: seq<WorkflowStep>, resume: nat -> Option<(TaskState, nat)>)
    : nat -> Option<(TaskState, nat)>
  {
    (i: nat) => if i < |steps| && steps[i].state.Waiting() then resume(i) else None
  }

  /** A step with a Task is in the state answered, if there is an answer and it is news. */
  function Taken(s: WorkflowStep, marks: set<Mark>, answer: Option<(TaskState, nat)>): WorkflowStep {
    if s.taskId != "" && answer.Some? && Observed(s.id, answer.value.1, answer.value.0) !in marks
    then s.(state := answer.value.0) else s
  }

  /** Every step that was asked about has taken over its answer, and the others are as they were. */
  ghost predicate TakesOver(a: Aggregate, b: Aggregate, seen: nat -> Option<(TaskState, nat)>,
                            asked: TaskState -> bool) {
    |b.steps| == |a.steps| &&
    forall i :: 0 <= i < |a.steps| ==>
      b.steps[i] == Taken(a.steps[i], a.marks, if asked(a.steps[i].state) then seen(i) else None)
  }

  /** What the first n answers leave: each changes its own step, and leaves its own mark. */
  ghost predicate TakenTo(a: Aggregate, b: Aggregate, seen: nat -> Option<(TaskState, nat)>, n: nat) {
    |b.steps| == |a.steps| && n <= |a.steps| &&
    (forall i :: n <= i < |a.steps| ==> b.steps[i] == a.steps[i] && SameMarks(a, b, a.steps[i].id)) &&
    forall i :: 0 <= i < n ==> b.steps[i] == Taken(a.steps[i], a.marks, seen(i))
  }

  ghost predicate SameMarks(a: Aggregate, b: Aggregate, id: string) {
    forall m: Mark :: m.step == id ==> (m in b.marks <==> m in a.marks)
  }

  /** One answer: it changes its step alone. */
  lemma OneTaken(b: Aggregate, n: nat, answer: Option<(TaskState, nat)>)
    requires n < |b.steps|
    ensures var c := if answer.None? || b.steps[n].taskId == "" then b
                     else ApplyObserved(b, n, answer.value.0, answer.value.1);
            c.steps == b.steps[n := Taken(b.steps[n], b.marks, answer)] &&
            forall id :: id != b.steps[n].id ==> SameMarks(b, c, id)
  {
  }

  lemma NextTaken(a: Aggregate, b: Aggregate, seen: nat -> Option<(TaskState, nat)>, n: nat)
    requires DistinctIds(a.steps) && TakenTo(a, b, seen, n) && n < |a.steps|
    ensures var c := if seen(n).None? || b.steps[n].taskId == "" then b
                     else ApplyObserved(b, n, seen(n).value.0, seen(n).value.1);
            TakenTo(a, c, seen, n + 1)
  {
    OneTaken(b, n, seen(n));
    var c := if seen(n).None? || b.steps[n].taskId == "" then b
             else ApplyObserved(b, n, seen(n).value.0, seen(n).value.1);
    forall i | n + 1 <= i < |a.steps| ensures c.steps[i] == a.steps[i] && SameMarks(a, c, a.steps[i].id) {
      assert a.steps[i].id != a.steps[n].id && SameMarks(a, b, a.steps[i].id) && SameMarks(b, c, a.steps[i].id);
    }
    assert SameMarks(a, b, a.steps[n].id);
  }

  lemma NoneTaken(a: Aggregate, seen: nat -> Option<(TaskState, nat)>)
    ensures TakenTo(a, UpdatedTo(a, seen, 0), seen, 0)
  {
  }

  lemma OneMoreUpdated(a: Aggregate, seen: nat -> Option<(TaskState, nat)>, n: nat)
    requires n < |a.steps|
    ensures var b := UpdatedTo(a, seen, n);
            UpdatedTo(a, seen, n + 1) ==
              if seen(n).None? || b.steps[n].taskId == "" then b
              else ApplyObserved(b, n, seen(n).value.0, seen(n).value.1)
  {
  }

  lemma {:induction false} UpdatedIsTaken(a: Aggregate, seen: nat -> Option<(TaskState, nat)>, n: nat)
    requires DistinctIds(a.steps) && n <= |a.steps|
    ensures TakenTo(a, UpdatedTo(a, seen, n), seen, n)
  {
    if n == 0 {
      NoneTaken(a, seen);
    } else {
      UpdatedIsTaken(a, seen, n - 1);
      NextTaken(a, UpdatedTo(a, seen, n - 1), seen, n - 1);
      OneMoreUpdated(a, seen, n - 1);
    }
  }

  lemma UpdatedTakesOver(a: Aggregate, seen: nat -> Option<(TaskState, nat)>)
    requires DistinctIds(a.steps)
    ensures TakesOver(a, Updated(a, seen), seen, s => true)
  {
    UpdatedIsTaken(a, seen, |a.steps|);
  }

  lemma ResumedTakesOver(a: Aggregate, resume: nat -> Option<(TaskState, nat)>)
    requires DistinctIds(a.steps)
    ensures TakesOver(a, Updated(a, Resuming(a.steps, resume)), resume, NeedsInput)
  {
    var seen := Resuming(a.steps, resume);
    UpdatedIsTaken(a, seen, |a.steps|);
    forall i: nat | i < |a.steps|
      ensures seen(i) == if NeedsInput(a.steps[i].state) then resume(i) else None
    {
      assert a.steps[i].state.Waiting() <==> NeedsInput(a.steps[i].state);
    }
  }

  class Coordinator {
    var steps: seq<WorkflowStep>
    var state: WorkflowState
    var marks: set<Mark>
    const provider: Provider
    const maxConcurrency: nat
    /** The steps of the definition, and every move made since. */
    ghost const origin: seq<WorkflowStep>
    ghost var moves: seq<Move>

    ghost function Value(): Aggregate
      reads this
    {
      Aggregate(steps, state, marks)
    }

    /** The moves are legal and lead from the definition to the present, where these steps are with the provider. */
    ghost predicate Led(out: set<nat>)
      reads this, provider
    {
      maxConcurrency >= 1 && Accepted(origin) &&
      Leads(Fresh(origin), moves, Moves(maxConcurrency), World(Value(), out, provider.calls))
    }

    ghost predicate Valid()
      reads this, provider
    {
      Led({})
    }

    constructor (steps: seq<WorkflowStep>, maxConcurrency: nat, provider: Provider)
      requires Accepted(steps) && maxConcurrency >= 1 && provider.calls == []
      ensures Valid() && Value() == Aggregate(steps, WorkflowPending, {}) && origin == steps && moves == []
      ensures this.maxConcurrency == maxConcurrency && this.provider == provider
    {
      this.steps, state, marks := steps, WorkflowPending, {};
      this.provider, this.maxConcurrency := provider, maxConcurrency;
      origin, moves := steps, [];
    }

    /** The steps to submit and the steps to reject, in step order. */
    method Classify() returns (ready: seq<nat>, blocked: seq<nat>)
      ensures forall i: nat :: i in ready <==> i < |steps| && IsReady(steps, i)
      ensures forall i: nat :: i in blocked <==> i < |steps| && IsBlocked(steps, i)
      ensures Once(ready) && Once(blocked)
    {
      ready, blocked := [], [];
      var i := 0;
      while i < |steps|
        invariant 0 <= i <= |steps|
        invariant forall k: nat :: k in ready <==> k < i && IsReady(steps, k)
        invariant forall k: nat :: k in blocked <==> k < i && IsBlocked(steps, k)
        invariant Once(ready) && Once(blocked)
      {
        var step := steps[i];
        if step.taskId == "" && step.state.Unknown? {
          var allTerminal, dependencyFailed := CheckDependencies(steps, step);
          if allTerminal {
            assert i !in blocked && i !in ready;
            if dependencyFailed && step.required {
              blocked := blocked + [i];
            } else {
              ready := ready + [i];
            }
          }
        }
        i := i + 1;
      }
    }

    /** Rejects one step whose required dependency failed. */
    method Block(i: nat)
      requires Valid() && i < |steps| && IsBlocked(steps, i)
      modifies `steps, `state, `marks, `moves
      ensures Value() == ApplyBlocked(old(Value()), i)
      ensures Valid() && moves == old(moves) + [Reject(i)]
    {
      OneMoreMove(origin, moves, World(Value(), {}, provider.calls), maxConcurrency, Reject(i));
      if Blocked(steps[i].id) !in marks {
        marks := marks + {Blocked(steps[i].id)};
        steps := steps[i := steps[i].(state := Rejected)];
        state := WorkflowStateForSteps(steps);
      }
      moves := moves + [Reject(i)];
    }

    method WriteStart(i: nat, outcome: Outcome)
      requires i < |steps|
      modifies `steps, `state, `marks
      ensures Value() == ApplyStart(old(Value()), i, outcome)
    {
      if Started(steps[i].id) !in marks {
        marks := marks + {Started(steps[i].id)};
        var step := steps[i].(attempt := steps[i].attempt + 1);
        match outcome {
          case SubmitFailed => step := step.(state := Failed);
          case Submitted(taskId, agentId, taskState) =>
            step := step.(taskId := taskId, agentId := agentId, state := taskState);
        }
        steps := steps[i := step];
        state := WorkflowStateForSteps(steps);
      }
    }

    /** Records the answer for a step that is with the provider. */
    method RecordStart(i: nat, outcome: Answer, ghost out: set<nat>)
      requires Led(out) && i in out && i < |steps|
      modifies `steps, `state, `marks, `moves
      ensures Value() == ApplyStart(old(Value()), i, outcome)
      ensures Led(out - {i}) && moves == old(moves) + [Record(i, outcome)]
    {
      OneMoreMove(origin, moves, World(Value(), out, provider.calls), maxConcurrency, Record(i, outcome));
      WriteStart(i, outcome);
      moves := moves + [Record(i, outcome)];
    }

    /** Where the recording of a batch stands. */
    ghost predicate Recording(was: seq<WorkflowStep>, wasMoves: seq<Move>, batch: set<nat>, remaining: set<nat>)
      reads this, provider
    {
      Led(remaining) && remaining <= batch <= WaitingSet(was) && Progressed(was, steps) && Schedules(wasMoves, moves) &&
      WaitingSet(steps) == WaitingSet(was) - (batch - remaining)
    }

    method RecordNext(ghost was: seq<WorkflowStep>, ghost wasMoves: seq<Move>, ghost batch: set<nat>,
                      ghost remaining: set<nat>, k: nat, outcome: Answer)
      requires Recording(was, wasMoves, batch, remaining) && k in remaining
      modifies `steps, `state, `marks, `moves
      ensures Recording(was, wasMoves, batch, remaining - {k})
    {
      LedIsGood(origin, moves, World(Value(), remaining, provider.calls), maxConcurrency);
      StartKeeps(Value(), k, outcome);
      ghost var before := steps;
      RecordStart(k, outcome, remaining);
      ProgressedTransitive(was, before, steps);
    }

    /** Records the answers to a batch in whatever order they arrive. */
    method RecordAll(answers: map<nat, Answer>)
      requires Led(answers.Keys) && answers.Keys <= WaitingSet(steps)
      modifies `steps, `state, `marks, `moves
      ensures Valid() && Progressed(old(steps), steps) && Schedules(old(moves), moves)
      ensures WaitingSet(steps) == WaitingSet(old(steps)) - answers.Keys
    {
      var remaining := answers.Keys;
      while remaining != {}
        invariant Recording(old(steps), old(moves), answers.Keys, remaining)
        decreases remaining
      {
        var k :| k in remaining;
        RecordNext(old(steps), old(moves), answers.Keys, remaining, k, answers[k]);
        remaining := remaining - {k};
      }
    }

    /** Submits the steps, in any order. */
    method AskAll(ready: seq<nat>) returns (answers: map<nat, Answer>, ghost asked: seq<nat>)
      modifies provider
      ensures answers.Keys == Indices(ready) == Indices(asked) && Once(asked) && |asked| <= |ready|
      ensures provider.calls == old(provider.calls) + asked
    {
      var remaining := Indices(ready);
      answers, asked := map[], [];
      while remaining != {}
        invariant Asking(ready, remaining, answers, asked) && provider.calls == old(provider.calls) + asked
        decreases remaining
      {
        var k :| k in remaining;
        var outcome := provider.SubmitTask(k);
        OneMoreAsked(ready, remaining, answers, asked, k, outcome);
        answers := answers[k := outcome];
        remaining := remaining - {k};
        asked := asked + [k];
      }
      IndicesAtMost(ready);
    }

    /** Submits a batch of ready steps and records the answers. */
    method RunBatch(ready: seq<nat>)
      requires Valid() && |ready| <= maxConcurrency && forall k :: k in ready ==> k < |steps| && IsReady(steps, k)
      modifies this, provider
      ensures Valid() && Progressed(old(steps), steps) && Schedules(old(moves), moves)
      ensures WaitingSet(steps) == WaitingSet(old(steps)) - Indices(ready)
    {
      ghost var was := World(Value(), {}, provider.calls);
      var answers, asked := AskAll(ready);
      assert forall k :: k in asked ==> k in Indices(asked);
      OneMoreMove(origin, moves, was, maxConcurrency, SubmitBatch(asked));
      moves := moves + [SubmitBatch(asked)];
      RecordAll(answers);
    }

    /** The first i of the blocked steps have been rejected; the others and the ready ones are as they were. */
    ghost predicate BlockedTo(was: seq<WorkflowStep>, wasMoves: seq<Move>, ready: seq<nat>, blocked: seq<nat>, i: nat)
      requires i <= |blocked|
      reads this, provider
    {
      Valid() && Progressed(was, steps) && OnlyRejects(wasMoves, moves) &&
      WaitingSet(steps) == WaitingSet(was) - Indices(blocked[..i]) &&
      (forall k :: k in ready ==> k < |steps| && IsReady(steps, k)) &&
      (forall n :: i <= n < |blocked| ==> blocked[n] < |steps| && IsBlocked(steps, blocked[n]))
    }

    method BlockNext(ghost was: seq<WorkflowStep>, ghost wasMoves: seq<Move>, ghost ready: seq<nat>, blocked: seq<nat>,
                     i: nat)
      requires i < |blocked| && Once(blocked) && blocked[i] !in ready && BlockedTo(was, wasMoves, ready, blocked, i)
      modifies `steps, `state, `marks, `moves
      ensures BlockedTo(was, wasMoves, ready, blocked, i + 1)
    {
      IndicesOneMore(blocked, i);
      LedIsGood(origin, moves, World(Value(), {}, provider.calls), maxConcurrency);
      BlockedKeeps(Value(), blocked[i]);
      ghost var before := steps;
      Block(blocked[i]);
      ProgressedTransitive(was, before, steps);
      OthersStayReady(before, steps, blocked[i]);
    }

    /** Rejects every blocked step; what was ready stays so. */
    method BlockAll(ghost ready: seq<nat>, blocked: seq<nat>)
      requires Valid() && Once(blocked)
      requires forall i: nat :: i in ready ==> i < |steps| && IsReady(steps, i)
      requires forall i: nat :: i in blocked ==> i < |steps| && IsBlocked(steps, i)
      modifies `steps, `state, `marks, `moves
      ensures Valid() && Progressed(old(steps), steps) && OnlyRejects(old(moves), moves)
      ensures WaitingSet(steps) == WaitingSet(old(steps)) - Indices(blocked)
      ensures forall i: nat :: i in ready ==> i < |steps| && IsReady(steps, i)
    {
      ghost var was, wasMoves := steps, moves;
      assert Indices(blocked[..0]) == {} && forall n :: 0 <= n < |blocked| ==> blocked[n] in blocked;
      var i := 0;
      while i < |blocked|
        invariant 0 <= i <= |blocked| && BlockedTo(was, wasMoves, ready, blocked, i)
      {
        assert blocked[i] in blocked && blocked[i] !in ready;
        BlockNext(was, wasMoves, ready, blocked, i);
        i := i + 1;
      }
      assert blocked[..i] == blocked;
    }

    /** Rejects the blocked steps and submits as many of the ready ones as may be with the provider at once. */
    method Act(ready: seq<nat>, blocked: seq<nat>)
      requires Valid() && Once(blocked)
      requires forall i: nat :: i in ready ==> i < |steps| && IsReady(steps, i)
      requires forall i: nat :: i in blocked ==> i < |steps| && IsBlocked(steps, i)
      modifies this, provider
      ensures Valid() && Progressed(old(steps), steps) && Schedules(old(moves), moves)
      ensures ready == [] ==> OnlyRejects(old(moves), moves)
      ensures exists batch: seq<nat> ::
                batch <= ready && (batch == [] ==> ready == []) &&
                WaitingSet(steps) == WaitingSet(old(steps)) - Indices(blocked) - Indices(batch)
    {
      BlockAll(ready, blocked);
      var batch := if |ready| > maxConcurrency then ready[..maxConcurrency] else ready;
      assert batch <= ready && forall k :: k in batch ==> k in ready;
      assert batch == [] ==> WaitingSet(steps) == WaitingSet(steps) - Indices(batch);
      if batch != [] {
        ghost var snapshot, middle := old(steps), steps;
        RunBatch(batch);
        ProgressedTransitive(snapshot, middle, steps);
      }
    }

    /** One pass of the loop: reject what is blocked, submit at most one batch of what is ready. */
    method Pass() returns (more: bool)
      requires Valid()
      modifies this, provider
      ensures Valid() && Progressed(old(steps), steps) && Schedules(old(moves), moves)
      ensures WaitingSet(steps) <= WaitingSet(old(steps))
      ensures more || (WaitingSet(old(steps)) != {} && TasksEnded(old(steps))) ==>
                |WaitingSet(steps)| < |WaitingSet(old(steps))|
      ensures !more ==> NothingReady(old(steps)) && OnlyRejects(old(moves), moves)
    {
      LedIsGood(origin, moves, World(Value(), {}, provider.calls), maxConcurrency);
      var ready, blocked := Classify();
      if |ready| == 0 && |blocked| == 0 {
        NothingToDo(steps);
        return false;
      }
      ghost var before := steps;
      Act(ready, blocked);
      FewerWait(before, steps, ready, blocked);
      return |ready| > 0;
    }

    /**
     Rejects and submits until nothing more is ready: `quiet` moves led to the last classification, in which nothing
     was, and only rejections came after it.
     */
    method SubmitWorkflowReady() returns (ghost quiet: nat, ghost last: World)
      requires Valid()
      modifies this, provider
      ensures Valid() && Round(old(steps), steps) && Schedules(old(moves), moves)
      ensures |old(moves)| <= quiet <= |moves| && OnlyRejects(moves[..quiet], moves)
      ensures Leads(Fresh(origin), moves[..quiet], Moves(maxConcurrency), last) && NothingReady(last.aggregate.steps)
    {
      var more := true;
      quiet, last := |moves|, World(Value(), {}, provider.calls);
      assert moves[..quiet] == moves;
      while more
        invariant Valid() && Progressed(old(steps), steps) && Schedules(old(moves), moves)
        invariant WaitingSet(steps) <= WaitingSet(old(steps))
        invariant steps == old(steps) || |WaitingSet(steps)| < |WaitingSet(old(steps))| || !more
        invariant |old(moves)| <= quiet <= |moves|
        invariant !more ==>
                    Round(old(steps), steps) && NothingReady(last.aggregate.steps) && OnlyRejects(moves[..quiet], moves)
        invariant Leads(Fresh(origin), moves[..quiet], Moves(maxConcurrency), last)
        decreases more, |WaitingSet(steps)|
      {
        ghost var before, start := steps, moves;
        quiet, last := |moves|, World(Value(), {}, provider.calls);
        more := Pass();
        assert moves[..quiet] == start;
        ProgressedTransitive(old(steps), before, steps);
        CardinalitySubset(WaitingSet(steps), WaitingSet(before));
      }
    }

    /** Records what a Task is seen to be; a state already recorded for its revision changes nothing. */
    method UpdateStep(i: nat, taskState: TaskState, revision: nat)
      requires Valid() && i < |steps| && steps[i].taskId != ""
      modifies `steps, `state, `marks, `moves
      ensures Value() == ApplyObserved(old(Value()), i, taskState, revision)
      ensures Valid() && moves == old(moves) + [Observe(i, taskState, revision)]
    {
      OneMoreMove(origin, moves, World(Value(), {}, provider.calls), maxConcurrency, Observe(i, taskState, revision));
      var mark := Observed(steps[i].id, revision, taskState);
      if mark !in marks {
        marks := marks + {mark};
        steps := steps[i := steps[i].(state := taskState)];
        state := WorkflowStateForSteps(steps);
      }
      moves := moves + [Observe(i, taskState, revision)];
    }

    /** The answers for the first n steps have been recorded. */
    ghost predicate UpdatedBy(was: Aggregate, wasMoves: seq<Move>, seen: nat -> Option<(TaskState, nat)>, n: nat)
      requires n <= |was.steps|
      reads this, provider
    {
      Valid() && Value() == UpdatedTo(was, seen, n) && OnlyObserves(wasMoves, moves) &&
      Progressed(was.steps, steps) && WaitingSet(steps) == WaitingSet(was.steps) && SameTasks(was.steps, steps)
    }

    lemma NothingUpdated(seen: nat -> Option<(TaskState, nat)>)
      requires Valid()
      ensures UpdatedBy(Value(), moves, seen, 0)
    {
    }

    method UpdateNext(ghost was: Aggregate, ghost wasMoves: seq<Move>, ghost seen: nat -> Option<(TaskState, nat)>,
                      n: nat, answer: Option<(TaskState, nat)>)
      requires n < |was.steps| && UpdatedBy(was, wasMoves, seen, n)
      requires was.steps[n].taskId == "" || answer == seen(n)
      modifies `steps, `state, `marks, `moves
      ensures UpdatedBy(was, wasMoves, seen, n + 1)
    {
      if steps[n].taskId != "" && answer.Some? {
        LedIsGood(origin, moves, World(Value(), {}, provider.calls), maxConcurrency);
        ObservedKeeps(Value(), n, answer.value.0, answer.value.1);
        ghost var before := steps;
        UpdateStep(n, answer.value.0, answer.value.1);
        ProgressedTransitive(was.steps, before, steps);
      }
    }

    /** Looks at every Task. */
    method ObserveAll(observe: nat -> Option<(TaskState, nat)>)
      requires Valid()
      modifies `steps, `state, `marks, `moves
      ensures UpdatedBy(old(Value()), old(moves), observe, |old(steps)|)
    {
      ghost var was, wasMoves := Value(), moves;
      NothingUpdated(observe);
      var i := 0;
      while i < |steps|
        invariant 0 <= i <= |steps| == |was.steps| && UpdatedBy(was, wasMoves, observe, i)
        decreases |steps| - i
      {
        var answer := None;
        if steps[i].taskId != "" {
          answer := observe(i);
        }
        UpdateNext(was, wasMoves, observe, i, answer);
        i := i + 1;
      }
    }

    /**
     Refreshes every step that has a Task, then schedules. `observe` answers for each step with its Task's
     state and revision, or with an error. `seen` is the aggregate between the two phases, after `n` moves.
     */
    method ReconcileWorkflow(observe: nat -> Option<(TaskState, nat)>) returns (ghost seen: Aggregate, ghost n: nat)
      requires Valid()
      modifies this, provider
      ensures TakesOver(old(Value()), seen, observe, s => true)
      ensures Progressed(old(steps), seen.steps) && WaitingSet(seen.steps) == WaitingSet(old(steps))
      ensures Valid() && Round(seen.steps, steps)
      ensures n <= |moves| && OnlyObserves(old(moves), moves[..n]) && Schedules(moves[..n], moves)
    {
      LedIsGood(origin, moves, World(Value(), {}, provider.calls), maxConcurrency);
      UpdatedTakesOver(Value(), observe);
      ObserveAll(observe);
      seen, n := Value(), |moves|;
      ghost var middle := moves;
      ghost var _, _ := SubmitWorkflowReady();
      assert moves[..n] == middle;
    }

    method ResumeNext(ghost was: Aggregate, ghost wasMoves: seq<Move>, snapshot: seq<WorkflowStep>,
                      resume: nat -> Option<(TaskState, nat)>, n: nat)
      requires n < |was.steps| && snapshot == was.steps && UpdatedBy(was, wasMoves, Resuming(snapshot, resume), n)
      modifies `steps, `state, `marks, `moves
      ensures UpdatedBy(was, wasMoves, Resuming(snapshot, resume), n + 1)
    {
      var answer := None;
      if snapshot[n].state.Waiting() && snapshot[n].taskId != "" {
        answer := resume(n);
      }
      UpdateNext(was, wasMoves, Resuming(snapshot, resume), n, answer);
    }

    /** Resumes every waiting Task. */
    method ResumeAll(resume: nat -> Option<(TaskState, nat)>)
      requires Valid()
      modifies `steps, `state, `marks, `moves
      ensures UpdatedBy(old(Value()), old(moves), Resuming(old(steps), resume), |old(steps)|)
    {
      var snapshot := steps;
      ghost var was, wasMoves := Value(), moves;
      NothingUpdated(Resuming(snapshot, resume));
      var i := 0;
      while i < |snapshot|
        invariant 0 <= i <= |snapshot| == |was.steps| && UpdatedBy(was, wasMoves, Resuming(snapshot, resume), i)
      {
        ResumeNext(was, wasMoves, snapshot, resume, i);
        i := i + 1;
      }
    }

    /** Resumes the waiting Tasks with the same input, then schedules; only from WAITING_INPUT. */
    method ContinueWorkflow(resume: nat -> Option<(TaskState, nat)>)
      returns (accepted: bool, ghost seen: Aggregate, ghost n: nat)
      requires Valid()
      modifies this, provider
      ensures Valid() && (accepted <==> old(state) == WorkflowWaitingInput)
      ensures !accepted ==> Value() == old(Value()) && moves == old(moves) && provider.calls == old(provider.calls)
      ensures accepted ==>
                TakesOver(old(Value()), seen, resume, NeedsInput) &&
                Progressed(old(steps), seen.steps) && WaitingSet(seen.steps) == WaitingSet(old(steps)) &&
                Round(seen.steps, steps) &&
                n <= |moves| && OnlyObserves(old(moves), moves[..n]) && Schedules(moves[..n], moves)
    {
      seen, n := Value(), |moves|;
      if state != WorkflowWaitingInput {
        return false, seen, n;
      }
      LedIsGood(origin, moves, World(Value(), {}, provider.calls), maxConcurrency);
      ResumedTakesOver(Value(), resume);
      ResumeAll(resume);
      seen, n := Value(), |moves|;
      ghost var middle := moves;
      ghost var _, _ := SubmitWorkflowReady();
      assert moves[..n] == middle;
      accepted := true;
    }
  }

  /** Whatever is picked leaves the waiting set. */
  lemma FewerWait(before: seq<WorkflowStep>, after: seq<WorkflowStep>, ready: seq<nat>, blocked: seq<nat>)
    requires ready != [] || blocked != []
    requires forall i: nat :: i in ready || i in blocked ==> i in WaitingSet(before)
    requires exists batch: seq<nat> ::
               batch <= ready && (batch == [] ==> ready == []) &&
               WaitingSet(after) == WaitingSet(before) - Indices(blocked) - Indices(batch)
    ensures WaitingSet(after) <= WaitingSet(before) && |WaitingSet(after)| < |WaitingSet(before)|
  {
    var batch: seq<nat> :| batch <= ready && (batch == [] ==> ready == []) &&
                           WaitingSet(after) == WaitingSet(before) - Indices(blocked) - Indices(batch);
    var moved := if batch != [] then batch[0] else blocked[0];
    assert moved in WaitingSet(before) by {
      assert batch != [] ==> batch[0] == ready[0];
    }
    Shrinks(WaitingSet(before), WaitingSet(after), moved);
  }

  /** The steps asked so far, each once, with their answers; these remain. */
  ghost predicate Asking(ready: seq<nat>, remaining: set<nat>, answers: map<nat, Answer>, asked: seq<nat>) {
    remaining <= Indices(ready) && answers.Keys == Indices(asked) == Indices(ready) - remaining &&
    Once(asked) && |asked| + |remaining| == |Indices(ready)|
  }

  lemma OneMoreAsked(ready: seq<nat>, remaining: set<nat>, answers: map<nat, Answer>, asked: seq<nat>, k: nat,
                     outcome: Answer)
    requires Asking(ready, remaining, answers, asked) && k in remaining
    ensures Asking(ready, remaining - {k}, answers[k := outcome], asked + [k])
  {
    assert k !in Indices(asked);
    assert forall i :: 0 <= i < |asked| ==> asked[i] in Indices(asked);
    assert Indices(asked + [k]) == Indices(asked) + {k};
  }

  /** A step that leaves the waiting set changes nothing for the others that are ready or blocked. */
  lemma OthersStayReady(before: seq<WorkflowStep>, after: seq<WorkflowStep>, j: nat)
    requires |before| == |after| && j < |before| && !before[j].state.Terminal() && after[j].id == before[j].id
    requires forall k :: 0 <= k < |before| && k != j ==> after[k] == before[k]
    ensures forall k: nat :: k < |before| && k != j && IsReady(before, k) ==> IsReady(after, k)
    ensures forall k: nat :: k < |before| && k != j && IsBlocked(before, k) ==> IsBlocked(after, k)
  {
    forall k: nat | k < |before| && k != j
      ensures (IsReady(before, k) ==> IsReady(after, k)) && (IsBlocked(before, k) ==> IsBlocked(after, k))
    {
      ReadinessKept(before, after, k);
    }
  }

  ghost predicate SameTasks(before: seq<WorkflowStep>, after: seq<WorkflowStep>) {
    |before| == |after| && forall i :: 0 <= i < |before| ==> after[i].taskId == before[i].taskId
  }

  datatype StartError =
    | NoTenant
    | NoSteps
    | BadVersion
    | BadConcurrency
    | DuplicateStep(id: string)
    | BadGraph(error: GraphError)

  /** Without a limit, all steps may be with the provider at once. */
  function Concurrency(limit: int, steps: nat): int {
    if limit <= 0 then steps else limit
  }

  /** Refuses two steps of the same name. */
  method CheckNames(steps: seq<WorkflowStep>) returns (r: Option<StartError>)
    ensures r.None? <==> DistinctIds(steps)
  {
    var seen: set<string> := {};
    var i := 0;
    while i < |steps|
      invariant 0 <= i <= |steps| && seen == StepIds(steps[..i]) && DistinctIds(steps[..i])
    {
      if steps[i].id in seen {
        var s :| s in steps[..i] && s.id == steps[i].id;
        return Some(DuplicateStep(steps[i].id));
      }
      assert forall k :: 0 <= k < i ==> steps[k] in steps[..i];
      assert steps[..i + 1] == steps[..i] + [steps[i]];
      seen := seen + {steps[i].id};
      i := i + 1;
    }
    assert steps[..i] == steps;
    return None;
  }

  /**
   Creates the aggregate and schedules its first steps, if the definition is accepted: step IDs are
   distinct and the graph is valid. Every accepted coordinator is Valid, so its graph never deadlocks.
   */
  method StartWorkflow(tenant: string, version: int, steps: seq<WorkflowStep>, limit: int, provider: Provider)
    returns (r: Result<Coordinator, StartError>)
    requires provider.calls == [] && forall s :: s in steps ==> Waiting(s)
    modifies provider
    ensures r.Ok? <==>
              tenant != "" && steps != [] && version <= 1000 && limit <= 1024 && (limit <= 0 ==> |steps| <= 1024) &&
              DistinctIds(steps) && AllKnown(steps) && Acyclic(steps)
    ensures r.Ok? ==>
              fresh(r.value) && r.value.Valid() && r.value.origin == steps && r.value.provider == provider &&
              r.value.maxConcurrency == (if limit <= 0 then |steps| else limit) && Round(steps, r.value.steps)
    ensures r.Err? ==> provider.calls == []
  {
    if tenant == "" {
      return Err(NoTenant);
    }
    if |steps| == 0 {
      return Err(NoSteps);
    }
    var definitionVersion := if version <= 0 then 1 else version;
    if definitionVersion > 1000 {
      return Err(BadVersion);
    }
    var bound := Concurrency(limit, |steps|);
    if bound > 1024 {
      return Err(BadConcurrency);
    }
    var twice := CheckNames(steps);
    if twice.Some? {
      return Err(twice.value);
    }
    var err := ValidateWorkflowGraph(steps);
    if err.Some? {
      return Err(BadGraph(err.value));
    }
    var c := new Coordinator(steps, bound, provider);
    ghost var _, _ := c.SubmitWorkflowReady();
    return Ok(c);
  }

  // Completion

  lemma WaitingNeverGrows(before: seq<WorkflowStep>, after: seq<WorkflowStep>)
    requires Progressed(before, after)
    ensures WaitingSet(after) <= WaitingSet(before) && |WaitingSet(after)| <= |WaitingSet(before)|
  {
    CardinalitySubset(WaitingSet(after), WaitingSet(before));
  }

  /** A sequence of calls, with any observations between them, each made when every started Task has ended. */
  ghost predicate CallsAtRest(starts: seq<seq<WorkflowStep>>, ends: seq<seq<WorkflowStep>>) {
    |starts| == |ends| &&
    (forall n :: 0 <= n < |starts| ==> TasksEnded(starts[n]) && Round(starts[n], ends[n])) &&
    (forall n :: 0 <= n < |starts| - 1 ==> Progressed(ends[n], starts[n + 1]))
  }

  lemma CallSchedules(before: seq<WorkflowStep>, after: seq<WorkflowStep>)
    requires TasksEnded(before) && Round(before, after)
    ensures WaitingSet(after) == {} || |WaitingSet(after)| < |WaitingSet(before)|
  {
  }

  lemma {:induction false} EachCallSchedules(starts: seq<seq<WorkflowStep>>, ends: seq<seq<WorkflowStep>>, n: nat)
    requires CallsAtRest(starts, ends) && n < |starts|
    ensures |WaitingSet(ends[n])| + n + 1 <= |WaitingSet(starts[0])| || WaitingSet(ends[n]) == {}
    decreases n
  {
    CallSchedules(starts[n], ends[n]);
    if n > 0 {
      EachCallSchedules(starts, ends, n - 1);
      BetweenCalls(starts, ends, n - 1);
    }
  }

  lemma BetweenCalls(starts: seq<seq<WorkflowStep>>, ends: seq<seq<WorkflowStep>>, n: nat)
    requires CallsAtRest(starts, ends) && n + 1 < |starts|
    ensures WaitingSet(starts[n + 1]) <= WaitingSet(ends[n]) && |WaitingSet(starts[n + 1])| <= |WaitingSet(ends[n])|
  {
    WaitingNeverGrows(ends[n], starts[n + 1]);
  }

  ghost function Below(n: nat): (r: set<nat>)
    ensures |r| == n && forall i: nat :: i in r <==> i < n
  {
    if n == 0 then {} else Below(n - 1) + {n - 1}
  }

  lemma WaitingAtMostAll(steps: seq<WorkflowStep>)
    ensures |WaitingSet(steps)| <= |steps|
  {
    CardinalitySubset(WaitingSet(steps), Below(|steps|));
  }

  /**
   The accepted graph runs to completion: after as many calls as there are steps, each made when the
   started Tasks had ended, every step has been scheduled; once their Tasks end too, every step is terminal.
   */
  lemma WorkflowFinishes(starts: seq<seq<WorkflowStep>>, ends: seq<seq<WorkflowStep>>)
    requires CallsAtRest(starts, ends) && starts != [] && |starts| >= |starts[0]|
    ensures var last := ends[|ends| - 1];
            WaitingSet(last) == {} &&
            (TasksEnded(last) && TasklessSteps(last) ==> forall s :: s in last ==> s.state.Terminal())
  {
    var n := |starts| - 1;
    EachCallSchedules(starts, ends, n);
    WaitingAtMostAll(starts[0]);
    var last := ends[n];
    if TasksEnded(last) && TasklessSteps(last) {
      forall s | s in last ensures s.state.Terminal() {
        var i :| 0 <= i < |last| && last[i] == s;
        assert i !in WaitingSet(last);
      }
    }
  }

  lemma {:induction false} Shrinks(before: set<nat>, after: set<nat>, x: nat)
    requires after <= before && x in before && x !in after
    ensures |after| < |before|
  {
    CardinalitySubset(after, before - {x});
  }
}
