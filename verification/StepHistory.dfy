/**
 What a step says about its past (internal/orchestration/workflow.go): after every run of moves each step is told by the
 moves that concern it.
 */
module StepHistory {
  import opened Wrappers
  import opened Model
  import opened WorkflowSteps
  import opened ScheduleRuns
  import opened Worlds
  import opened Folds

  predicate IsRecord(m: Move, k: nat) {
    m.Record? && m.step == k
  }

  /** Among the first n moves, the step's answer was recorded. */
  ghost predicate WasRecorded(moves: seq<Move>, n: nat, k: nat) {
    exists j :: 0 <= j < n && j < |moves| && IsRecord(moves[j], k)
  }

  ghost predicate WasRejected(moves: seq<Move>, n: nat, k: nat) {
    exists j :: 0 <= j < n && j < |moves| && moves[j] == Reject(k)
  }

  ghost predicate WasSeen(moves: seq<Move>, n: nat, k: nat, taskState: TaskState, revision: nat) {
    exists j :: 0 <= j < n && j < |moves| && moves[j] == Observe(k, taskState, revision)
  }

  /** The move says something new about the step's Task: its start, or a state at a revision not seen before. */
  ghost predicate IsNews(moves: seq<Move>, j: nat, k: nat) {
    j < |moves| &&
    (IsRecord(moves[j], k) ||
     (moves[j].Observe? && moves[j].step == k && !WasSeen(moves, j, k, moves[j].taskState, moves[j].revision)))
  }

  function StateIn(m: Move): TaskState {
    match m
    case Reject(_) => Rejected
    case SubmitBatch(_) => Unknown
    case Record(_, SubmitFailed) => Failed
    case Record(_, Submitted(_, _, taskState)) => taskState
    case Observe(_, taskState, _) => taskState
  }

  /** The state is what the last news said. */
  ghost predicate LastNews(moves: seq<Move>, n: nat, k: nat, taskState: TaskState) {
    exists j :: 0 <= j < n && IsNews(moves, j, k) && StateIn(moves[j]) == taskState &&
                forall m :: j < m < n ==> !IsNews(moves, m, k)
  }

  /** The step as its recorded answer leaves it: tried once more, with the Task and the agent that were answered. */
  predicate AsAnswered(o: WorkflowStep, s: WorkflowStep, outcome: Outcome) {
    s.attempt == o.attempt + 1 &&
    match outcome
    case SubmitFailed => s == o.(attempt := o.attempt + 1, state := s.state)
    case Submitted(taskId, agentId, _) =>
      s == o.(attempt := o.attempt + 1, taskId := taskId, agentId := agentId, state := s.state)
  }

  ghost predicate AnswerTold(moves: seq<Move>, n: nat, k: nat, o: WorkflowStep, s: WorkflowStep) {
    exists j :: 0 <= j < n && j < |moves| && IsRecord(moves[j], k) && AsAnswered(o, s, moves[j].outcome)
  }

  /** What the step is, and what the marks say of it, after the first n moves. */
  ghost predicate StepTold(moves: seq<Move>, n: nat, k: nat, o: WorkflowStep, s: WorkflowStep) {
    if WasRecorded(moves, n, k) then AnswerTold(moves, n, k, o, s) && LastNews(moves, n, k, s.state)
    else if WasRejected(moves, n, k) then s == o.(state := Rejected)
    else s == o
  }

  ghost predicate MarksTold(moves: seq<Move>, n: nat, k: nat, id: string, marks: set<Mark>) {
    (Started(id) in marks <==> WasRecorded(moves, n, k)) && (Blocked(id) in marks <==> WasRejected(moves, n, k)) &&
    forall taskState, revision ::
      Observed(id, revision, taskState) in marks <==> WasSeen(moves, n, k, taskState, revision)
  }

  ghost predicate Told(moves: seq<Move>, n: nat, k: nat, o: WorkflowStep, a: Aggregate) {
    k < |a.steps| && a.steps[k].id == o.id && StepTold(moves, n, k, o, a.steps[k]) &&
    MarksTold(moves, n, k, o.id, a.marks)
  }

  // One more move

  lemma OneMore(moves: seq<Move>, n: nat, k: nat)
    requires n < |moves|
    ensures WasRecorded(moves, n + 1, k) <==> WasRecorded(moves, n, k) || IsRecord(moves[n], k)
    ensures WasRejected(moves, n + 1, k) <==> WasRejected(moves, n, k) || moves[n] == Reject(k)
    ensures forall taskState, revision ::
              WasSeen(moves, n + 1, k, taskState, revision) <==>
              WasSeen(moves, n, k, taskState, revision) || moves[n] == Observe(k, taskState, revision)
  {
  }

  lemma NewsStays(moves: seq<Move>, n: nat, k: nat, taskState: TaskState)
    requires n < |moves| && LastNews(moves, n, k, taskState) && !IsNews(moves, n, k)
    ensures LastNews(moves, n + 1, k, taskState)
  {
    var j :| 0 <= j < n && IsNews(moves, j, k) && StateIn(moves[j]) == taskState &&
             forall m :: j < m < n ==> !IsNews(moves, m, k);
    assert forall m :: j < m < n + 1 ==> !IsNews(moves, m, k);
  }

  lemma NewsComes(moves: seq<Move>, n: nat, k: nat)
    requires IsNews(moves, n, k)
    ensures LastNews(moves, n + 1, k, StateIn(moves[n]))
  {
  }

  lemma AnswerStaysTold(moves: seq<Move>, n: nat, k: nat, o: WorkflowStep, s: WorkflowStep, t: WorkflowStep)
    requires AnswerTold(moves, n, k, o, s) && t == s.(state := t.state)
    ensures AnswerTold(moves, n + 1, k, o, t)
  {
    var j :| 0 <= j < n && j < |moves| && IsRecord(moves[j], k) && AsAnswered(o, s, moves[j].outcome);
    assert AsAnswered(o, t, moves[j].outcome);
  }

  /** A move that concerns another step, or none. */
  lemma OtherMoveTold(moves: seq<Move>, n: nat, k: nat, o: WorkflowStep, a: Aggregate, b: Aggregate)
    requires n < |moves| && Told(moves, n, k, o, a) && k < |b.steps| && b.steps[k] == a.steps[k]
    requires moves[n].SubmitBatch? || moves[n].step != k
    requires forall m: Mark :: m.step == o.id ==> (m in b.marks <==> m in a.marks)
    ensures Told(moves, n + 1, k, o, b)
  {
    OneMore(moves, n, k);
    if WasRecorded(moves, n, k) {
      NewsStays(moves, n, k, a.steps[k].state);
      AnswerStaysTold(moves, n, k, o, a.steps[k], a.steps[k]);
    }
  }

  lemma RejectTold(moves: seq<Move>, n: nat, k: nat, o: WorkflowStep, a: Aggregate)
    requires n < |moves| && Told(moves, n, k, o, a) && moves[n] == Reject(k) && Waiting(a.steps[k]) && MarksLeave(a)
    ensures Told(moves, n + 1, k, o, ApplyBlocked(a, k))
  {
    OneMore(moves, n, k);
  }

  lemma RecordTold(moves: seq<Move>, n: nat, k: nat, o: WorkflowStep, a: Aggregate, outcome: Outcome)
    requires n < |moves| && Told(moves, n, k, o, a) && moves[n] == Record(k, outcome)
    requires Waiting(a.steps[k]) && MarksLeave(a)
    ensures Told(moves, n + 1, k, o, ApplyStart(a, k, outcome))
  {
    OneMore(moves, n, k);
    NewsComes(moves, n, k);
    assert AsAnswered(o, ApplyStart(a, k, outcome).steps[k], outcome);
    assert IsRecord(moves[n], k);
  }

  lemma ObserveTold(moves: seq<Move>, n: nat, k: nat, o: WorkflowStep, a: Aggregate, taskState: TaskState,
                    revision: nat)
    requires n < |moves| && Told(moves, n, k, o, a) && moves[n] == Observe(k, taskState, revision)
    requires WasRecorded(moves, n, k)
    ensures Told(moves, n + 1, k, o, ApplyObserved(a, k, taskState, revision))
  {
    OneMore(moves, n, k);
    var b := ApplyObserved(a, k, taskState, revision);
    AnswerStaysTold(moves, n, k, o, a.steps[k], b.steps[k]);
    if Observed(o.id, revision, taskState) in a.marks {
      NewsStays(moves, n, k, a.steps[k].state);
    } else {
      NewsComes(moves, n, k);
    }
  }

  /** Only a step whose Task was recorded has one. */
  lemma NextTold(origin: seq<WorkflowStep>, moves: seq<Move>, n: nat, k: nat, w: World, bound: nat)
    requires Accepted(origin) && Good(w, origin) && n < |moves| && k < |origin| && Legal(w, moves[n], bound)
    requires Told(moves, n, k, origin[k], w.aggregate)
    ensures Told(moves, n + 1, k, origin[k], Moved(w, moves[n], bound).aggregate)
  {
    var a := w.aggregate;
    match moves[n] {
      case SubmitBatch(_) => OtherMoveTold(moves, n, k, origin[k], a, a);
      case Reject(i) =>
        if i == k { RejectTold(moves, n, k, origin[k], a); }
        else { OtherMoveTold(moves, n, k, origin[k], a, ApplyBlocked(a, i)); }
      case Record(i, outcome) =>
        if i == k { RecordTold(moves, n, k, origin[k], a, outcome); }
        else { OtherMoveTold(moves, n, k, origin[k], a, ApplyStart(a, i, outcome)); }
      case Observe(i, taskState, revision) =>
        if i == k { ObserveTold(moves, n, k, origin[k], a, taskState, revision); }
        else { OtherMoveTold(moves, n, k, origin[k], a, ApplyObserved(a, i, taskState, revision)); }
    }
  }

  lemma NothingTold(origin: seq<WorkflowStep>, moves: seq<Move>, k: nat)
    requires k < |origin|
    ensures Told(moves, 0, k, origin[k], Fresh(origin).aggregate)
  {
  }

  /** The world after each move of a legal run is good. */
  lemma {:induction false} RunTold(origin: seq<WorkflowStep>, moves: seq<Move>, n: nat, k: nat, bound: nat,
                                   trail: seq<World>)
    requires Accepted(origin) && Trail(trail, Fresh(origin), Taking(moves, Moves(bound)))
    requires n < |trail| == |moves| + 1 && k < |origin|
    ensures Good(trail[n], origin) && Told(moves, n, k, origin[k], trail[n].aggregate)
  {
    if n == 0 {
      FreshIsGood(origin);
      NothingTold(origin, moves, k);
    } else {
      RunTold(origin, moves, n - 1, k, bound, trail);
      assert Taking(moves, Moves(bound))(trail[n - 1], n - 1) == Some(trail[n]);
      NextKeepsGood(trail[n - 1], moves[n - 1], bound, origin);
      NextTold(origin, moves, n - 1, k, trail[n - 1], bound);
    }
  }

  /**
   Every step tells its past, after every run of moves: a step whose answer was recorded was tried once more, has the
   Task and the agent that were answered, or none if the submission failed, and is in the state that the last news of
   its Task said; a rejected step is REJECTED and otherwise as it was defined; every other step is as it was defined.
   */
  lemma StepTellsItsPast(origin: seq<WorkflowStep>, moves: seq<Move>, w: World, bound: nat, k: nat)
    requires Accepted(origin) && Leads(Fresh(origin), moves, Moves(bound), w) && k < |origin|
    ensures k < |w.aggregate.steps| && StepTold(moves, |moves|, k, origin[k], w.aggregate.steps[k])
  {
    var trail := FoldTrail(Fresh(origin), Taking(moves, Moves(bound)), |moves|);
    RunTold(origin, moves, |moves|, k, bound, trail);
  }
}
