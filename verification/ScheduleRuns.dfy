/**
 The scheduler as a machine of moves (internal/orchestration/workflow.go, submitWorkflowReady, updateStep): which moves
 are allowed, and what holds after every sequence of them. Scheduler proves that its calls make such moves only.
 */
module ScheduleRuns {
  import opened Wrappers
  import opened Model
  import opened TaskStates
  import opened WorkflowGraph
  import opened WorkflowSteps
  import opened Worlds
  import opened Folds

  /** The aggregate, the steps that are with the provider now, and all that ever were, in order. */
  datatype World = World(aggregate: Aggregate, out: set<nat>, sent: seq<nat>)

  datatype Move =
    | Reject(step: nat)                                     // records that a required dependency failed
    | SubmitBatch(batch: seq<nat>)                          // sends steps to the provider
    | Record(step: nat, outcome: Outcome)                   // records the answer for one of them
    | Observe(step: nat, taskState: TaskState, revision: nat) // records what a Task is seen to be

  ghost predicate Once(xs: seq<nat>) {
    forall i, j :: 0 <= i < j < |xs| ==> xs[i] != xs[j]
  }

  function Indices(xs: seq<nat>): set<nat> {
    set k | k in xs
  }

  lemma IndicesOneMore(xs: seq<nat>, i: nat)
    requires i < |xs| && Once(xs)
    ensures Indices(xs[..i + 1]) == Indices(xs[..i]) + {xs[i]}
    ensures xs[i] !in Indices(xs[..i]) && xs[i] in Indices(xs)
  {
    assert xs[..i + 1] == xs[..i] + [xs[i]];
  }

  /**
   A step is rejected only while it is blocked, and sent only while it is ready, at most `bound` at a time, each once;
   the answers to a batch are recorded before the next one; only steps with a Task are observed.
   */
  ghost predicate Legal(w: World, m: Move, bound: nat) {
    var steps := w.aggregate.steps;
    match m
    case Reject(i) => i < |steps| && IsBlocked(steps, i) && w.out == {}
    case SubmitBatch(batch) =>
      w.out == {} && |batch| <= bound && Once(batch) &&
      forall k :: k in batch ==> k < |steps| && IsReady(steps, k)
    case Record(i, outcome) => i in w.out && i < |steps| && (outcome.Submitted? ==> outcome.taskId != "")
    case Observe(i, _, _) => i < |steps| && steps[i].taskId != "" && w.out == {}
  }

  ghost function Moved(w: World, m: Move, bound: nat): World
    requires Legal(w, m, bound)
  {
    match m
    case Reject(i) => w.(aggregate := ApplyBlocked(w.aggregate, i))
    case SubmitBatch(batch) => w.(out := Indices(batch), sent := w.sent + batch)
    case Record(i, outcome) => w.(aggregate := ApplyStart(w.aggregate, i, outcome), out := w.out - {i})
    case Observe(i, taskState, revision) => w.(aggregate := ApplyObserved(w.aggregate, i, taskState, revision))
  }

  ghost function Moves(bound: nat): (World, Move) -> Option<World> {
    (w: World, m: Move) => if Legal(w, m, bound) then Some(Moved(w, m, bound)) else None
  }

  /** A new aggregate: nothing has moved, and the definition was accepted. */
  ghost predicate Accepted(steps: seq<WorkflowStep>) {
    DistinctIds(steps) && AllKnown(steps) && Acyclic(steps) && forall s :: s in steps ==> Waiting(s)
  }

  ghost function Fresh(steps: seq<WorkflowStep>): World {
    World(Aggregate(steps, WorkflowPending, {}), {}, [])
  }

  // What every move keeps

  /** Exactly the steps that were sent are with the provider or have their answer recorded. */
  ghost predicate Accounted(w: World) {
    var a := w.aggregate;
    Once(w.sent) && w.out <= Indices(w.sent) &&
    (forall k :: k in w.sent ==> k < |a.steps|) &&
    (forall k :: k in w.out ==> k < |a.steps| && Waiting(a.steps[k]) && Started(a.steps[k].id) !in a.marks) &&
    (forall k: nat :: k < |a.steps| ==> (Started(a.steps[k].id) in a.marks <==> k in w.sent && k !in w.out)) &&
    (forall k: nat :: k < |a.steps| && a.steps[k].taskId != "" ==> k in w.sent && k !in w.out)
  }

  ghost predicate Good(w: World, origin: seq<WorkflowStep>) {
    Sound(w.aggregate) && Progressed(origin, w.aggregate.steps) && Accounted(w)
  }

  lemma FreshIsGood(origin: seq<WorkflowStep>)
    requires Accepted(origin)
    ensures Good(Fresh(origin), origin)
  {
    forall i | 0 <= i < |origin| ensures Waiting(origin[i]) {
      assert origin[i] in origin;
    }
  }

  lemma RejectKeepsGood(w: World, i: nat, bound: nat, origin: seq<WorkflowStep>)
    requires Good(w, origin) && Legal(w, Reject(i), bound)
    ensures Good(Moved(w, Reject(i), bound), origin)
  {
    BlockedKeeps(w.aggregate, i);
    ProgressedTransitive(origin, w.aggregate.steps, ApplyBlocked(w.aggregate, i).steps);
  }

  lemma SubmitKeepsGood(w: World, batch: seq<nat>, bound: nat, origin: seq<WorkflowStep>)
    requires Good(w, origin) && Legal(w, SubmitBatch(batch), bound)
    ensures Good(Moved(w, SubmitBatch(batch), bound), origin)
  {
    var all := w.sent + batch;
    forall i, j | 0 <= i < j < |all| ensures all[i] != all[j] {
      if i < |w.sent| <= j {
        assert all[i] in w.sent && all[j] in batch;
      }
    }
    assert forall k :: k in all <==> k in w.sent || k in batch;
  }

  lemma RecordKeepsGood(w: World, i: nat, outcome: Outcome, bound: nat, origin: seq<WorkflowStep>)
    requires Good(w, origin) && Legal(w, Record(i, outcome), bound)
    ensures Good(Moved(w, Record(i, outcome), bound), origin)
  {
    StartKeeps(w.aggregate, i, outcome);
    ProgressedTransitive(origin, w.aggregate.steps, ApplyStart(w.aggregate, i, outcome).steps);
  }

  lemma ObserveKeepsGood(w: World, i: nat, taskState: TaskState, revision: nat, bound: nat, origin: seq<WorkflowStep>)
    requires Good(w, origin) && Legal(w, Observe(i, taskState, revision), bound)
    ensures Good(Moved(w, Observe(i, taskState, revision), bound), origin)
  {
    ObservedKeeps(w.aggregate, i, taskState, revision);
    ProgressedTransitive(origin, w.aggregate.steps, ApplyObserved(w.aggregate, i, taskState, revision).steps);
  }

  lemma NextKeepsGood(w: World, m: Move, bound: nat, origin: seq<WorkflowStep>)
    requires Good(w, origin) && Legal(w, m, bound)
    ensures Good(Moved(w, m, bound), origin)
  {
    match m
    case Reject(i) => RejectKeepsGood(w, i, bound, origin);
    case SubmitBatch(batch) => SubmitKeepsGood(w, batch, bound, origin);
    case Record(i, outcome) => RecordKeepsGood(w, i, outcome, bound, origin);
    case Observe(i, taskState, revision) => ObserveKeepsGood(w, i, taskState, revision, bound, origin);
  }

  /** Every world that legal moves lead to is good. */
  lemma ReachableIsGood(origin: seq<WorkflowStep>, w: World, bound: nat)
    requires Accepted(origin) && Reaches(Fresh(origin), w, Moves(bound))
    ensures Good(w, origin)
  {
    FreshIsGood(origin);
    forall a, m | Good(a, origin) && Legal(a, m, bound) ensures Good(Moved(a, m, bound), origin) {
      NextKeepsGood(a, m, bound, origin);
    }
    ReachableKeeps(Fresh(origin), w, Moves(bound), (a: World) => Good(a, origin));
  }

  // The state of the aggregate

  /** Every step is in such a state. */
  ghost predicate Every(steps: seq<WorkflowStep>, such: TaskState -> bool) {
    forall i :: 0 <= i < |steps| ==> such(steps[i].state)
  }

  ghost predicate Any(steps: seq<WorkflowStep>, such: TaskState -> bool) {
    exists i :: 0 <= i < |steps| && such(steps[i].state)
  }

  /** What the state of an aggregate says about its steps. */
  ghost predicate StateTells(state: WorkflowState, steps: seq<WorkflowStep>) {
    var completed := (s: TaskState) => s == Completed;
    (state == WorkflowCompleted <==> Every(steps, completed)) &&
    (state == WorkflowFailed <==> steps != [] && Every(steps, Ended) && !Any(steps, completed)) &&
    (state == WorkflowPartiallyFailed <==>
       Every(steps, Ended) && Any(steps, completed) && !Every(steps, completed)) &&
    (state == WorkflowWaitingInput <==> Any(steps, NeedsInput)) &&
    (state == WorkflowRunning <==> !Every(steps, Ended) && !Any(steps, NeedsInput))
  }

  lemma EveryAndAny(steps: seq<WorkflowStep>, such: TaskState -> bool)
    ensures Every(steps, such) <==> forall s :: s in steps ==> such(s.state)
    ensures Any(steps, such) <==> exists s :: s in steps && such(s.state)
  {
    assert forall i :: 0 <= i < |steps| ==> steps[i] in steps;
  }

  lemma StateOfSteps(steps: seq<WorkflowStep>)
    ensures StateTells(StateForSteps(steps), steps)
  {
    var completed := (s: TaskState) => s == Completed;
    EveryAndAny(steps, completed);
    EveryAndAny(steps, Ended);
    EveryAndAny(steps, NeedsInput);
    if steps != [] && Every(steps, completed) {
      assert completed(steps[0].state);
    }
  }

  /** PENDING until the first change is recorded, and the state of the steps afterwards. */
  ghost predicate Told(w: World) {
    if w.aggregate.marks == {} then w.aggregate.state == WorkflowPending
    else StateTells(w.aggregate.state, w.aggregate.steps)
  }

  lemma NextIsTold(w: World, m: Move, bound: nat)
    requires Told(w) && Legal(w, m, bound)
    ensures Told(Moved(w, m, bound))
  {
    StateOfSteps(Moved(w, m, bound).aggregate.steps);
  }

  /**
   In every reachable state: PENDING while no change has been recorded; then COMPLETED exactly if every step is,
   FAILED exactly if all have ended and none COMPLETED, PARTIALLY_FAILED exactly if all have ended, some COMPLETED and
   some not, WAITING_INPUT exactly if some step waits for input or authorisation, and RUNNING otherwise.
   */
  lemma AggregateTellsItsSteps(origin: seq<WorkflowStep>, w: World, bound: nat)
    requires Reaches(Fresh(origin), w, Moves(bound))
    ensures Told(w)
  {
    forall a, m | Told(a) && Legal(a, m, bound) ensures Told(Moved(a, m, bound)) {
      NextIsTold(a, m, bound);
    }
    ReachableKeeps(Fresh(origin), w, Moves(bound), (a: World) => Told(a));
  }

  // Safety

  /** After the first n moves. */
  ghost function After(origin: seq<WorkflowStep>, moves: seq<Move>, n: nat, bound: nat): World {
    Fold(Fresh(origin), Taking(moves, Moves(bound)), n).0
  }

  /** The steps that the first n moves sent. */
  function SentBy(moves: seq<Move>, n: nat): seq<nat>
    requires n <= |moves|
  {
    if n == 0 then []
    else SentBy(moves, n - 1) + if moves[n - 1].SubmitBatch? then moves[n - 1].batch else []
  }

  lemma {:induction false} SentIsSubmitted(origin: seq<WorkflowStep>, moves: seq<Move>, n: nat, bound: nat)
    requires n <= |moves| && Fold(Fresh(origin), Taking(moves, Moves(bound)), n).1
    ensures After(origin, moves, n, bound).sent == SentBy(moves, n)
  {
    if n > 0 {
      SentIsSubmitted(origin, moves, n - 1, bound);
    }
  }

  lemma LegalAt(origin: seq<WorkflowStep>, moves: seq<Move>, w: World, n: nat, bound: nat)
    requires Leads(Fresh(origin), moves, Moves(bound), w) && n < |moves|
    ensures Fold(Fresh(origin), Taking(moves, Moves(bound)), n).1
    ensures Legal(After(origin, moves, n, bound), moves[n], bound)
  {
    var trail := FoldTrail(Fresh(origin), Taking(moves, Moves(bound)), |moves|);
    assert Taking(moves, Moves(bound))(trail[n], n) == Some(trail[n + 1]);
  }

  /**
   Scheduler safety over every run: no step is ever sent to the provider twice; every step with a Task was sent; what
   was sent is what the batches held, each at most `bound` long; and each step of a batch was ready in the very state
   in which the batch was sent, so its dependencies had ended, all COMPLETED if it is required.
   */
  lemma SubmissionsAreSafe(origin: seq<WorkflowStep>, moves: seq<Move>, w: World, bound: nat)
    requires Accepted(origin) && Leads(Fresh(origin), moves, Moves(bound), w)
    ensures Once(w.sent) && w.sent == SentBy(moves, |moves|)
    ensures forall k: nat :: k < |w.aggregate.steps| && w.aggregate.steps[k].taskId != "" ==> k in w.sent
    ensures forall n :: 0 <= n < |moves| && moves[n].SubmitBatch? ==>
              |moves[n].batch| <= bound &&
              forall k :: k in moves[n].batch ==>
                var steps := After(origin, moves, n, bound).aggregate.steps;
                k < |steps| && IsReady(steps, k)
  {
    assert Reaches(Fresh(origin), w, Moves(bound));
    ReachableIsGood(origin, w, bound);
    SentIsSubmitted(origin, moves, |moves|, bound);
    forall n | 0 <= n < |moves| && moves[n].SubmitBatch?
      ensures |moves[n].batch| <= bound
      ensures forall k :: k in moves[n].batch ==>
                var steps := After(origin, moves, n, bound).aggregate.steps;
                k < |steps| && IsReady(steps, k)
    {
      LegalAt(origin, moves, w, n, bound);
    }
  }

  // Once Tasks do not leave a terminal state

  /** An ended Task is not seen to be anything else (TaskChanges proves that it never is). */
  ghost predicate Steady(w: World, m: Move) {
    m.Observe? && m.step < |w.aggregate.steps| && w.aggregate.steps[m.step].state.Terminal() ==>
      m.taskState == w.aggregate.steps[m.step].state
  }

  ghost function SteadyMoves(bound: nat): (World, Move) -> Option<World> {
    (w: World, m: Move) => if Legal(w, m, bound) && Steady(w, m) then Some(Moved(w, m, bound)) else None
  }

  /** The dependencies of everything that was sent have ended, all COMPLETED where the step is required. */
  ghost predicate DependenciesEnded(w: World) {
    forall k :: k in w.sent && k < |w.aggregate.steps| ==>
      AllTerminal(w.aggregate.steps, w.aggregate.steps[k]) &&
      (w.aggregate.steps[k].required ==> AllCompleted(w.aggregate.steps, w.aggregate.steps[k]))
  }

  lemma EndsStayAfter(w: World, m: Move, bound: nat, origin: seq<WorkflowStep>)
    requires Good(w, origin) && Legal(w, m, bound) && Steady(w, m)
    ensures EndsStay(w.aggregate.steps, Moved(w, m, bound).aggregate.steps)
    ensures Progressed(w.aggregate.steps, Moved(w, m, bound).aggregate.steps)
  {
  }

  lemma NextKeepsEnded(w: World, m: Move, bound: nat, origin: seq<WorkflowStep>)
    requires Good(w, origin) && Legal(w, m, bound) && Steady(w, m) && DependenciesEnded(w)
    ensures DependenciesEnded(Moved(w, m, bound))
  {
    EndsStayAfter(w, m, bound, origin);
    var before, next := w.aggregate.steps, Moved(w, m, bound);
    var after := next.aggregate.steps;
    forall k | k in next.sent && k < |after|
      ensures AllTerminal(after, after[k]) && (after[k].required ==> AllCompleted(after, after[k]))
    {
      assert k in w.sent || (m.SubmitBatch? && k in m.batch);
      DependenciesKept(before, after, before[k]);
    }
  }

  /**
   In every reachable state of a workflow whose Tasks stay as they end, every step that was ever sent has only ended
   dependencies, and only COMPLETED ones if it is required; a step with an open dependency was never sent.
   */
  lemma SentOnlyAfterDependencies(origin: seq<WorkflowStep>, w: World, bound: nat)
    requires Accepted(origin) && Reaches(Fresh(origin), w, SteadyMoves(bound))
    ensures DependenciesEnded(w)
    ensures forall k: nat :: k < |w.aggregate.steps| && w.aggregate.steps[k].taskId != "" ==> k in w.sent
  {
    FreshIsGood(origin);
    forall a, m | Good(a, origin) && DependenciesEnded(a) && Legal(a, m, bound) && Steady(a, m)
      ensures Good(Moved(a, m, bound), origin) && DependenciesEnded(Moved(a, m, bound))
    {
      NextKeepsGood(a, m, bound, origin);
      NextKeepsEnded(a, m, bound, origin);
    }
    ReachableKeeps(Fresh(origin), w, SteadyMoves(bound), (a: World) => Good(a, origin) && DependenciesEnded(a));
  }
}
