/**
 Saga compensation (internal/orchestration/workflow.go, CompensateWorkflow and reconcileCompensation).
 Step IDs hold no colon, so a mark stands for the deduplication key with the same parts.
 */
module Compensation {
  import opened Wrappers
  import opened Model
  import opened TaskStates

  datatype Mark =
    | Submission(step: string)                      // "compensation:<step>", and "compensation:started"
    | Observed(step: string, state: TaskState)      // "compensation:state:<step>:<state>"
    | Terminal(final: WorkflowState, revision: nat) // "compensation:terminal:<state>:<revision>"

  const STARTED := Submission("started")

  predicate RecordedFailure(s: WorkflowStep) {
    s.compensationState.Some? && s.compensationState.value.Unsuccessful()
  }

  /** The step completed and declares a compensation. */
  predicate NeedsCompensation(s: WorkflowStep) {
    s.state.Completed? && s.compensationText != ""
  }

  /** Every recorded compensating Task can be read. */
  ghost predicate Readable(steps: seq<WorkflowStep>, getTask: string -> Option<TaskState>) {
    forall s :: s in steps && s.compensationTaskId != "" ==> getTask(s.compensationTaskId).Some?
  }

  predicate Settled(s: WorkflowStep, getTask: string -> Option<TaskState>) {
    if s.compensationTaskId == "" then RecordedFailure(s) || !NeedsCompensation(s)
    else getTask(s.compensationTaskId).GetOr(Unknown).Terminal()
  }

  predicate CompensationFailed(s: WorkflowStep, getTask: string -> Option<TaskState>) {
    if s.compensationTaskId == "" then RecordedFailure(s)
    else getTask(s.compensationTaskId).GetOr(Unknown).Unsuccessful()
  }

  /** What the state becomes once every step has been looked at. */
  function Verdict(steps: seq<WorkflowStep>, getTask: string -> Option<TaskState>,
                   before: WorkflowState): WorkflowState {
    if !(forall s :: s in steps ==> Settled(s, getTask)) then before
    else if exists s :: s in steps && CompensationFailed(s, getTask) then WorkflowFailed
    else WorkflowCompensated
  }

  /** The step's compensation, if it needs one, is recorded and COMPLETED, and nothing recorded failed. */
  predicate Compensated(s: WorkflowStep, getTask: string -> Option<TaskState>) {
    if s.compensationTaskId != "" then getTask(s.compensationTaskId) == Some(Completed)
    else !NeedsCompensation(s) && !RecordedFailure(s)
  }

  /**
   Compensation soundness and completeness: the workflow moves to COMPENSATED exactly when every completed
   step with a compensation has a recorded compensating Task that is COMPLETED, and no step's failed.
   */
  lemma CompensatedIffEveryStepIs(steps: seq<WorkflowStep>, getTask: string -> Option<TaskState>, before: WorkflowState)
    requires Readable(steps, getTask) && before != WorkflowCompensated
    ensures Verdict(steps, getTask, before) == WorkflowCompensated
            <==> forall s :: s in steps ==> Compensated(s, getTask)
  {
    if forall s :: s in steps ==> Compensated(s, getTask) {
      forall s | s in steps ensures Settled(s, getTask) && !CompensationFailed(s, getTask) {
        assert Compensated(s, getTask);
      }
    }
    if Verdict(steps, getTask, before) == WorkflowCompensated {
      forall s | s in steps ensures Compensated(s, getTask) {
        assert Settled(s, getTask) && !CompensationFailed(s, getTask);
      }
    }
  }

  /** No Task will come of the step's compensation, because its submission failed. */
  ghost predicate NoTaskComes(s: WorkflowStep) {
    s.compensationTaskId == "" && s.compensationState.Some? && EndedBadly(s.compensationState.value)
  }

  /** The step completed and declares a compensation, and nothing has come of it yet. */
  ghost predicate IsMissing(s: WorkflowStep) {
    s.compensationTaskId == "" && s.state == Completed && s.compensationText != "" && !NoTaskComes(s)
  }

  /** The step's compensating Task is in such a state. */
  ghost predicate TaskIs(s: WorkflowStep, getTask: string -> Option<TaskState>, such: TaskState -> bool) {
    s.compensationTaskId != "" && getTask(s.compensationTaskId).Some? && such(getTask(s.compensationTaskId).value)
  }

  /** Something is still open: a needed compensation is missing, or a compensating Task has not ended. */
  ghost predicate StillOpen(steps: seq<WorkflowStep>, getTask: string -> Option<TaskState>) {
    exists s :: s in steps && (IsMissing(s) || TaskIs(s, getTask, t => !Ended(t)))
  }

  /** Something went wrong: a submission failed, or a compensating Task ended other than COMPLETED. */
  ghost predicate WentWrong(steps: seq<WorkflowStep>, getTask: string -> Option<TaskState>) {
    exists s :: s in steps && (NoTaskComes(s) || TaskIs(s, getTask, EndedBadly))
  }

  /**
   All three verdicts, in terms of the Tasks read: the state stays as it is exactly while something is open, and
   becomes FAILED exactly if nothing is open and something went wrong, and COMPENSATED otherwise.
   */
  lemma VerdictTells(steps: seq<WorkflowStep>, getTask: string -> Option<TaskState>, before: WorkflowState)
    requires Readable(steps, getTask) && before != WorkflowCompensated && before != WorkflowFailed
    ensures Verdict(steps, getTask, before) == before <==> StillOpen(steps, getTask)
    ensures Verdict(steps, getTask, before) == WorkflowFailed
            <==> !StillOpen(steps, getTask) && WentWrong(steps, getTask)
    ensures Verdict(steps, getTask, before) == WorkflowCompensated
            <==> !StillOpen(steps, getTask) && !WentWrong(steps, getTask)
  {
    forall s | s in steps
      ensures Settled(s, getTask) <==> !IsMissing(s) && !TaskIs(s, getTask, t => !Ended(t))
      ensures CompensationFailed(s, getTask) <==> NoTaskComes(s) || TaskIs(s, getTask, EndedBadly)
    {
    }
  }

  /** Only the recorded compensation states may differ. */
  ghost predicate SameButObserved(before: seq<WorkflowStep>, after: seq<WorkflowStep>) {
    |before| == |after| && forall i :: 0 <= i < |before| ==>
      after[i] == before[i].(compensationState := after[i].compensationState) &&
      (before[i].compensationTaskId == "" ==> after[i] == before[i])
  }

  /** A failed submission was recorded, and its key is used up. */
  ghost predicate Lost(s: WorkflowStep, marks: set<Mark>) {
    s.compensationTaskId == "" && RecordedFailure(s) && Submission(s.id) in marks
  }

  ghost predicate DistinctIds(steps: seq<WorkflowStep>) {
    forall i, j :: 0 <= i < j < |steps| ==> steps[i].id != steps[j].id
  }

  /** What SubmitTask answers: the new Task's ID and state, or an error. */
  type Answer = a: Option<(string, TaskState)> | a.Some? ==> a.value.0 != "" witness None

  /** The step is given a compensating Task now. */
  predicate Submits(s: WorkflowStep) {
    NeedsCompensation(s) && s.compensationTaskId == ""
  }

  function Answered(s: WorkflowStep, answer: Answer): WorkflowStep {
    match answer
    case None => s.(compensationState := Some(Failed))
    case Some((id, taskState)) => s.(compensationTaskId := id, compensationState := Some(taskState))
  }

  /** A step after the submissions: its answer is kept only if its key is new. */
  function AfterSubmission(s: WorkflowStep, marks: set<Mark>, answer: Answer): WorkflowStep {
    if Submits(s) && Submission(s.id) !in marks then Answered(s, answer) else s
  }

  /** The steps after the submissions. */
  function AfterSubmissions(steps: seq<WorkflowStep>, marks: set<Mark>, submit: nat -> Answer): seq<WorkflowStep> {
    seq(|steps|, i requires 0 <= i < |steps| => AfterSubmission(steps[i], marks, submit(i)))
  }

  /** Among the first n steps, some submission failed and was recorded as failed. */
  predicate RecordsFailure(steps: seq<WorkflowStep>, marks: set<Mark>, submit: nat -> Answer, n: nat)
    requires n <= |steps|
  {
    n > 0 &&
    (RecordsFailure(steps, marks, submit, n - 1) ||
     (Submits(steps[n - 1]) && Submission(steps[n - 1].id) !in marks && submit(n - 1).None?))
  }

  /** The Tasks the provider accepts for the first n steps, in step order. */
  function AcceptedBy(steps: seq<WorkflowStep>, submit: nat -> Answer, n: nat): seq<(nat, string)>
    requires n <= |steps|
  {
    if n == 0 then []
    else
      AcceptedBy(steps, submit, n - 1) +
      if Submits(steps[n - 1]) && submit(n - 1).Some? then [(n - 1, submit(n - 1).value.0)] else []
  }

  // What looking at the first n steps finds

  predicate AllSettled(steps: seq<WorkflowStep>, getTask: string -> Option<TaskState>, n: nat)
    requires n <= |steps|
  {
    n == 0 || (AllSettled(steps, getTask, n - 1) && Settled(steps[n - 1], getTask))
  }

  predicate AnyFailed(steps: seq<WorkflowStep>, getTask: string -> Option<TaskState>, n: nat)
    requires n <= |steps|
  {
    n > 0 && (AnyFailed(steps, getTask, n - 1) || CompensationFailed(steps[n - 1], getTask))
  }

  predicate AllReadable(steps: seq<WorkflowStep>, getTask: string -> Option<TaskState>, n: nat)
    requires n <= |steps|
  {
    n == 0 ||
    (AllReadable(steps, getTask, n - 1) &&
     (steps[n - 1].compensationTaskId != "" ==> getTask(steps[n - 1].compensationTaskId).Some?))
  }

  lemma {:induction false} FoundAmongFirst(steps: seq<WorkflowStep>, getTask: string -> Option<TaskState>, n: nat)
    requires n <= |steps|
    ensures AllSettled(steps, getTask, n) <==> forall i :: 0 <= i < n ==> Settled(steps[i], getTask)
    ensures AnyFailed(steps, getTask, n) <==> exists i :: 0 <= i < n && CompensationFailed(steps[i], getTask)
    ensures AllReadable(steps, getTask, n) <==>
              forall i :: 0 <= i < n && steps[i].compensationTaskId != "" ==> getTask(steps[i].compensationTaskId).Some?
  {
    if n > 0 {
      FoundAmongFirst(steps, getTask, n - 1);
    }
  }

  /** What a complete look amounts to. */
  lemma LookedAtAll(steps: seq<WorkflowStep>, getTask: string -> Option<TaskState>, before: WorkflowState)
    ensures AllReadable(steps, getTask, |steps|) <==> Readable(steps, getTask)
    ensures Verdict(steps, getTask, before) ==
            if !AllSettled(steps, getTask, |steps|) then before
            else if AnyFailed(steps, getTask, |steps|) then WorkflowFailed else WorkflowCompensated
  {
    FoundAmongFirst(steps, getTask, |steps|);
    if !AllReadable(steps, getTask, |steps|) {
      var i :| 0 <= i < |steps| && steps[i].compensationTaskId != "" && getTask(steps[i].compensationTaskId).None?;
      assert steps[i] in steps;
    }
    if !AllSettled(steps, getTask, |steps|) {
      var i :| 0 <= i < |steps| && !Settled(steps[i], getTask);
      assert steps[i] in steps;
    }
    if AnyFailed(steps, getTask, |steps|) {
      var i :| 0 <= i < |steps| && CompensationFailed(steps[i], getTask);
      assert steps[i] in steps;
    }
  }

  // What one call makes of a workflow

  /** The workflow, and the compensating Tasks the provider has accepted, with the step each was meant for. */
  datatype Saga = Saga(steps: seq<WorkflowStep>, state: WorkflowState, marks: set<Mark>, accepted: seq<(nat, string)>)

  /** A call, with the answers to the submissions and the reads that it meets. */
  datatype Call =
    | Compensate(submit: nat -> Answer, getTask: string -> Option<TaskState>)
    | Reconcile(getTask: string -> Option<TaskState>)

  predicate MayCompensate(state: WorkflowState) {
    state == WorkflowFailed || state == WorkflowPartiallyFailed
  }

  /** The state that submissions leave. */
  ghost function StateAfterSubmissions(b: Saga, submit: nat -> Answer): WorkflowState {
    if RecordsFailure(b.steps, b.marks, submit, |b.steps|) then WorkflowFailed
    else if STARTED in b.marks then b.state else WorkflowCompensating
  }

  /** Every compensating Task was looked at, if all could be read, and the state settled on what they say. */
  ghost predicate LookedOver(steps: seq<WorkflowStep>, state: WorkflowState, a: Saga,
                             getTask: string -> Option<TaskState>) {
    SameButObserved(steps, a.steps) &&
    a.state == if Readable(steps, getTask) then Verdict(steps, getTask, state) else state
  }

  ghost predicate Follows(b: Saga, call: Call, a: Saga) {
    b.marks <= a.marks &&
    match call
    case Reconcile(getTask) => LookedOver(b.steps, b.state, a, getTask) && a.accepted == b.accepted
    case Compensate(submit, getTask) =>
      if MayCompensate(b.state) then
        LookedOver(AfterSubmissions(b.steps, b.marks, submit), StateAfterSubmissions(b, submit), a, getTask) &&
        a.accepted == b.accepted + AcceptedBy(b.steps, submit, |b.steps|)
      else a == b
  }

  class Compensator {
    var steps: seq<WorkflowStep>
    var state: WorkflowState
    var marks: set<Mark>
    var revision: nat
    /** Compensating Tasks the provider has accepted, with the step each was meant for. */
    var accepted: seq<(nat, string)>

    ghost function Value(): Saga
      reads this
    {
      Saga(steps, state, marks, accepted)
    }

    /** Step IDs are distinct, and terminal marks carry earlier revisions, so the next one is always new. */
    ghost predicate Valid()
      reads this
    {
      DistinctIds(steps) && (forall s :: s in steps ==> s.id != STARTED.step) &&
      forall m :: m in marks && m.Terminal? ==> m.revision < revision
    }

    constructor (steps: seq<WorkflowStep>, state: WorkflowState, revision: nat)
      requires DistinctIds(steps) && forall s :: s in steps ==> s.id != STARTED.step
      ensures Valid() && this.steps == steps && this.state == state && marks == {} && accepted == []
    {
      this.steps, this.state, this.revision, marks, accepted := steps, state, revision, {}, [];
    }

    /** Records what a compensating Task is seen to be. */
    method Observe(i: nat, taskState: TaskState)
      requires Valid() && i < |steps| && steps[i].compensationTaskId != ""
      modifies `steps, `marks, `revision
      ensures Valid() && SameButObserved(old(steps), steps)
      ensures marks == old(marks) + {Observed(steps[i].id, taskState)}
      ensures Observed(steps[i].id, taskState) !in old(marks) ==>
                steps == old(steps)[i := old(steps)[i].(compensationState := Some(taskState))] &&
                revision == old(revision) + 1
      ensures Observed(steps[i].id, taskState) in old(marks) ==> steps == old(steps) && revision == old(revision)
    {
      var mark := Observed(steps[i].id, taskState);
      if mark !in marks {
        ghost var before := steps;
        steps := steps[i := steps[i].(compensationState := Some(taskState))];
        marks := marks + {mark};
        revision := revision + 1;
        IdsKept(before, steps);
      }
    }

    /** How far a look has come: what it found, and what it has recorded on the way. */
    ghost predicate LookedAt(was: seq<WorkflowStep>, wasState: WorkflowState, wasMarks: set<Mark>,
                             getTask: string -> Option<TaskState>, n: nat, allDone: bool, anyFailed: bool)
      reads this
    {
      Valid() && n <= |was| && SameButObserved(was, steps) && state == wasState &&
      wasMarks <= marks && (forall m :: m in marks && m !in wasMarks ==> !m.Submission?) &&
      AllReadable(was, getTask, n) && allDone == AllSettled(was, getTask, n) && anyFailed == AnyFailed(was, getTask, n)
    }

    method LookNext(was: seq<WorkflowStep>, ghost wasState: WorkflowState, ghost wasMarks: set<Mark>,
                    getTask: string -> Option<TaskState>, n: nat, allDone: bool, anyFailed: bool)
      returns (ok: bool, done: bool, failed: bool)
      requires n < |was| && LookedAt(was, wasState, wasMarks, getTask, n, allDone, anyFailed)
      modifies `steps, `marks, `revision
      ensures ok ==> LookedAt(was, wasState, wasMarks, getTask, n + 1, done, failed)
      ensures !ok ==> LookedAt(was, wasState, wasMarks, getTask, n, allDone, anyFailed) && !Readable(was, getTask)
    {
      ghost var before := steps;
      var settled, stepFailed;
      ok, settled, stepFailed := LookAt(was[n], n, getTask);
      ObservedTwice(was, before, steps);
      if !ok {
        assert was[n] in was;
      }
      return ok, allDone && settled, anyFailed || stepFailed;
    }

    /** Looks at one step. */
    method LookAt(step: WorkflowStep, i: nat, getTask: string -> Option<TaskState>)
      returns (ok: bool, settled: bool, failed: bool)
      requires Valid() && i < |steps| && steps[i].compensationTaskId == step.compensationTaskId
      modifies `steps, `marks, `revision
      ensures Valid() && SameButObserved(old(steps), steps) && old(marks) <= marks
      ensures forall m :: m in marks && m !in old(marks) ==> !m.Submission?
      ensures ok <==> step.compensationTaskId == "" || getTask(step.compensationTaskId).Some?
      ensures ok ==> settled == Settled(step, getTask) && failed == CompensationFailed(step, getTask)
    {
      if step.compensationTaskId == "" {
        if RecordedFailure(step) {
          return true, true, true;
        }
        return true, !(step.state.Completed? && step.compensationText != ""), false;
      }
      var task := getTask(step.compensationTaskId);
      if task.None? {
        return false, false, false;
      }
      Observe(i, task.value);
      return true, task.value.Terminal(), task.value.Unsuccessful();
    }

    /** Looks at every compensating Task and settles the workflow's state. */
    method ReconcileCompensation(getTask: string -> Option<TaskState>) returns (ok: bool)
      requires Valid()
      modifies `steps, `state, `marks, `revision
      ensures Valid() && Follows(old(Value()), Reconcile(getTask), Value())
      ensures ok <==> Readable(old(steps), getTask)
      ensures forall m :: m in marks && m !in old(marks) ==> !m.Submission?
    {
      var snapshot := steps;
      LookedAtAll(snapshot, getTask, state);
      var allDone, anyFailed := true, false;
      var i := 0;
      ghost var wasState, wasMarks := state, marks;
      while i < |snapshot|
        invariant 0 <= i <= |snapshot| && LookedAt(snapshot, wasState, wasMarks, getTask, i, allDone, anyFailed)
      {
        var ok, done, failed := LookNext(snapshot, wasState, wasMarks, getTask, i, allDone, anyFailed);
        if !ok {
          return false;
        }
        allDone, anyFailed := done, failed;
        i := i + 1;
      }
      if allDone {
        Settle(if anyFailed then WorkflowFailed else WorkflowCompensated);
      }
      return true;
    }

    /** Records a terminal state, under a key that carries the revision and so is always new. */
    method Settle(final: WorkflowState)
      requires Valid()
      modifies `state, `marks, `revision
      ensures Valid() && state == final && marks == old(marks) + {Terminal(final, old(revision))}
    {
      var mark := Terminal(final, revision);
      if mark !in marks {
        state := final;
        marks := marks + {mark};
        revision := revision + 1;
      }
    }

    /** Records a compensating submission's answer under the step's one submission key. */
    method RecordSubmission(i: nat, answer: Answer)
      requires Valid() && i < |steps| && Submits(steps[i])
      modifies `steps, `state, `marks, `revision
      ensures Valid() && marks == old(marks) + {Submission(old(steps)[i].id)}
      ensures steps == old(steps)[i := AfterSubmission(old(steps)[i], old(marks), answer)]
      ensures state == if Submission(old(steps)[i].id) !in old(marks) && answer.None? then WorkflowFailed
                       else old(state)
    {
      var mark := Submission(steps[i].id);
      if mark in marks {
        return;
      }
      ghost var before := steps;
      match answer {
        case None =>
          steps := steps[i := steps[i].(compensationState := Some(Failed))];
          state := WorkflowFailed;
        case Some((id, taskState)) =>
          steps := steps[i := steps[i].(compensationTaskId := id, compensationState := Some(taskState))];
      }
      marks := marks + {mark};
      revision := revision + 1;
      IdsKept(before, steps);
    }

    /** The first n steps have had their submissions, and the keys of the others are as they were. */
    ghost predicate SubmittedTo(was: seq<WorkflowStep>, keys: set<Mark>, sent: seq<(nat, string)>,
                                before: WorkflowState, submit: nat -> Answer, n: nat)
      reads this
    {
      Valid() && n <= |was| == |steps| && keys <= marks &&
      (forall k :: 0 <= k < |steps| ==>
         steps[k] == if k < n then AfterSubmission(was[k], keys, submit(k)) else was[k]) &&
      (forall k :: n <= k < |steps| ==> (Submission(was[k].id) in marks <==> Submission(was[k].id) in keys)) &&
      accepted == sent + AcceptedBy(was, submit, n) &&
      state == if RecordsFailure(was, keys, submit, n) then WorkflowFailed else before
    }

    method SubmitNext(ghost was: seq<WorkflowStep>, ghost keys: set<Mark>, ghost sent: seq<(nat, string)>,
                      ghost before: WorkflowState, submit: nat -> Answer, n: nat)
      requires n < |was| && DistinctIds(was) && SubmittedTo(was, keys, sent, before, submit, n)
      modifies this
      ensures SubmittedTo(was, keys, sent, before, submit, n + 1)
    {
      assert forall k :: n < k < |was| ==> was[k].id != was[n].id;
      SubmitOne(n, submit(n));
    }

    /** Gives one step its compensating Task, if it lacks one. */
    method SubmitOne(i: nat, answer: Answer)
      requires Valid() && i < |steps|
      modifies this
      ensures Valid() && marks == old(marks) + if Submits(old(steps)[i]) then {Submission(old(steps)[i].id)} else {}
      ensures steps == old(steps)[i := AfterSubmission(old(steps)[i], old(marks), answer)]
      ensures accepted == old(accepted) + if Submits(old(steps)[i]) && answer.Some? then [(i, answer.value.0)] else []
      ensures state == if Submits(old(steps)[i]) && Submission(old(steps)[i].id) !in old(marks) && answer.None?
                       then WorkflowFailed else old(state)
    {
      var step := steps[i];
      if step.state.Completed? && step.compensationText != "" && step.compensationTaskId == "" {
        if answer.Some? {
          accepted := accepted + [(i, answer.value.0)];
        }
        RecordSubmission(i, answer);
      }
    }

    /** Gives every step that lacks one its compensating Task; `submit` answers for each step. */
    method SubmitMissing(submit: nat -> Answer)
      requires Valid()
      modifies this
      ensures SubmittedTo(old(steps), old(marks), old(accepted), old(state), submit, |old(steps)|)
    {
      ghost var was, keys, sent, before := steps, marks, accepted, state;
      var i := 0;
      while i < |steps|
        invariant 0 <= i <= |steps| && SubmittedTo(was, keys, sent, before, submit, i)
        decreases |was| - i
      {
        SubmitNext(was, keys, sent, before, submit, i);
        i := i + 1;
      }
    }

    /** Marks the start, once, and submits the compensations that are still missing. */
    method BeginAndSubmit(submit: nat -> Answer)
      requires Valid() && MayCompensate(state)
      modifies this
      ensures Valid() && old(marks) <= marks
      ensures steps == AfterSubmissions(old(steps), old(marks), submit)
      ensures state == StateAfterSubmissions(old(Value()), submit)
      ensures accepted == old(accepted) + AcceptedBy(old(steps), submit, |old(steps)|)
    {
      ghost var keys := marks;
      if STARTED !in marks {
        state := WorkflowCompensating;
        marks := marks + {STARTED};
        revision := revision + 1;
      }
      StartedIsNoStep(steps, keys, marks, submit, |steps|);
      SubmitMissing(submit);
    }

    /**
     Submits the compensations that are still missing, then settles the state; only after a failure. `getTask` reads
     compensating Tasks after the submissions.
     */
    method CompensateWorkflow(submit: nat -> Answer, getTask: string -> Option<TaskState>) returns (started: bool)
      requires Valid()
      modifies this
      ensures Valid() && (started <==> old(state) == WorkflowFailed || old(state) == WorkflowPartiallyFailed)
      ensures Follows(old(Value()), Compensate(submit, getTask), Value())
    {
      if state != WorkflowFailed && state != WorkflowPartiallyFailed {
        return false;
      }
      BeginAndSubmit(submit);
      var _ := ReconcileCompensation(getTask);
      return true;
    }
  }

  lemma IdsKept(before: seq<WorkflowStep>, after: seq<WorkflowStep>)
    requires DistinctIds(before) && |before| == |after|
    requires forall i :: 0 <= i < |before| ==> after[i].id == before[i].id
    ensures DistinctIds(after) && forall s :: s in after ==> exists t :: t in before && t.id == s.id
  {
  }

  lemma ObservedTwice(a: seq<WorkflowStep>, b: seq<WorkflowStep>, c: seq<WorkflowStep>)
    requires SameButObserved(a, b) && SameButObserved(b, c)
    ensures SameButObserved(a, c)
  {
  }

  /** The start's key is no step's, so it changes no submission. */
  lemma {:induction false} StartedIsNoStep(steps: seq<WorkflowStep>, keys: set<Mark>, marks: set<Mark>,
                                           submit: nat -> Answer, n: nat)
    requires n <= |steps| && (marks == keys || marks == keys + {STARTED})
    requires forall s :: s in steps ==> s.id != STARTED.step
    ensures RecordsFailure(steps, keys, submit, n) == RecordsFailure(steps, marks, submit, n)
    ensures AfterSubmissions(steps, keys, submit) == AfterSubmissions(steps, marks, submit)
  {
    if n > 0 {
      StartedIsNoStep(steps, keys, marks, submit, n - 1);
      assert steps[n - 1] in steps;
    }
    forall i | 0 <= i < |steps|
      ensures AfterSubmission(steps[i], keys, submit(i)) == AfterSubmission(steps[i], marks, submit(i))
    {
      assert steps[i] in steps;
    }
  }

  // Whether compensation can still succeed

  /** The step's compensation is under way, can still be submitted, or is not needed. */
  predicate Recoverable(s: WorkflowStep, marks: set<Mark>) {
    if s.compensationTaskId != "" then true
    else if NeedsCompensation(s) then Submission(s.id) !in marks
    else !RecordedFailure(s)
  }

  /** These answers and reads lead to COMPENSATED. */
  ghost predicate Succeeds(steps: seq<WorkflowStep>, marks: set<Mark>, before: WorkflowState, submit: nat -> Answer,
                           getTask: string -> Option<TaskState>) {
    Readable(AfterSubmissions(steps, marks, submit), getTask) &&
    Verdict(AfterSubmissions(steps, marks, submit), getTask, before) == WorkflowCompensated
  }

  lemma SuccessNeedsRecoverable(steps: seq<WorkflowStep>, marks: set<Mark>, before: WorkflowState,
                                submit: nat -> Answer, getTask: string -> Option<TaskState>)
    requires before != WorkflowCompensated && Succeeds(steps, marks, before, submit, getTask)
    ensures forall s :: s in steps ==> Recoverable(s, marks)
  {
    var submitted := AfterSubmissions(steps, marks, submit);
    CompensatedIffEveryStepIs(submitted, getTask, before);
    forall s | s in steps ensures Recoverable(s, marks) {
      var i :| 0 <= i < |steps| && steps[i] == s;
      assert submitted[i] == AfterSubmission(s, marks, submit(i));
      assert submitted[i] in submitted && Compensated(submitted[i], getTask);
    }
  }

  /** If everything is recoverable, a provider that accepts and completes everything makes it good. */
  lemma RecoverableSucceeds(steps: seq<WorkflowStep>, marks: set<Mark>, before: WorkflowState)
    returns (submit: nat -> Answer, getTask: string -> Option<TaskState>)
    requires before != WorkflowCompensated && forall s :: s in steps ==> Recoverable(s, marks)
    ensures Succeeds(steps, marks, before, submit, getTask)
  {
    submit, getTask := (n: nat) => Some(("task", Completed)), (id: string) => Some(Completed);
    var submitted := AfterSubmissions(steps, marks, submit);
    forall s | s in submitted ensures Compensated(s, getTask) {
      var i :| 0 <= i < |submitted| && submitted[i] == s;
      assert s == AfterSubmission(steps[i], marks, submit(i));
      assert steps[i] in steps && Recoverable(steps[i], marks);
    }
    CompensatedIffEveryStepIs(submitted, getTask, before);
  }

  /**
   When a retry can succeed: some answers and reads lead to COMPENSATED if and only if every step has a recorded
   compensating Task, or needs one and its submission key is unused, or needs none and has no recorded failure. So
   a failed submission, whose key is used up without a Task, can never be made good.
   */
  lemma RetryCanSucceedIffRecoverable(steps: seq<WorkflowStep>, marks: set<Mark>, before: WorkflowState)
    requires before != WorkflowCompensated
    ensures (exists submit: nat -> Answer, getTask :: Succeeds(steps, marks, before, submit, getTask))
            <==> forall s :: s in steps ==> Recoverable(s, marks)
  {
    if forall s :: s in steps ==> Recoverable(s, marks) {
      var submit, getTask := RecoverableSucceeds(steps, marks, before);
      assert Succeeds(steps, marks, before, submit, getTask);
    }
    if submit: nat -> Answer, getTask :| Succeeds(steps, marks, before, submit, getTask) {
      SuccessNeedsRecoverable(steps, marks, before, submit, getTask);
    }
  }

  // A failed submission, over all calls

  ghost predicate History(sagas: seq<Saga>, calls: seq<Call>) {
    |sagas| == |calls| + 1 && forall n :: 0 <= n < |calls| ==> Follows(sagas[n], calls[n], sagas[n + 1])
  }

  /** The step still needs its compensation, its submission failed, and the workflow is not COMPENSATED. */
  ghost predicate Hopeless(saga: Saga, i: nat) {
    i < |saga.steps| && Lost(saga.steps[i], saga.marks) && Submits(saga.steps[i]) && saga.state != WorkflowCompensated
  }

  lemma LookKeepsHopeless(steps: seq<WorkflowStep>, state: WorkflowState, a: Saga, i: nat,
                          getTask: string -> Option<TaskState>)
    requires LookedOver(steps, state, a, getTask) && state != WorkflowCompensated
    requires i < |steps| && Submits(steps[i])
    ensures i < |a.steps| && a.steps[i] == steps[i] && a.state != WorkflowCompensated
  {
    assert steps[i] in steps && !Compensated(steps[i], getTask);
    if Readable(steps, getTask) {
      CompensatedIffEveryStepIs(steps, getTask, state);
    }
  }

  lemma CallKeepsHopeless(b: Saga, call: Call, a: Saga, i: nat)
    requires Follows(b, call, a) && Hopeless(b, i)
    ensures Hopeless(a, i)
  {
    match call
    case Reconcile(getTask) => LookKeepsHopeless(b.steps, b.state, a, i, getTask);
    case Compensate(submit, getTask) =>
      if MayCompensate(b.state) {
        var submitted := AfterSubmissions(b.steps, b.marks, submit);
        assert submitted[i] == AfterSubmission(b.steps[i], b.marks, submit(i)) == b.steps[i];
        LookKeepsHopeless(submitted, StateAfterSubmissions(b, submit), a, i, getTask);
      }
  }

  /** The provider has accepted the Task that this call submitted for the step. */
  ghost predicate AcceptsAnother(b: Saga, call: Call, a: Saga, i: nat) {
    call.Compensate? && MayCompensate(b.state) && call.submit(i).Some? ==> (i, call.submit(i).value.0) in a.accepted
  }

  /**
   A failed submission stays lost: whatever calls follow, with whatever answers and reads, the step never gets a
   compensating Task and the workflow never becomes COMPENSATED, although the provider accepts another Task for the
   step at every retry, whose ID is dropped because the step's key is used up.
   */
  lemma {:induction false} LostCompensationStaysLost(sagas: seq<Saga>, calls: seq<Call>, i: nat, n: nat)
    requires History(sagas, calls) && n <= |calls| && Hopeless(sagas[0], i)
    ensures Hopeless(sagas[n], i) && !Recoverable(sagas[n].steps[i], sagas[n].marks)
    ensures forall m :: 0 <= m < n ==> AcceptsAnother(sagas[m], calls[m], sagas[m + 1], i)
  {
    if n > 0 {
      LostCompensationStaysLost(sagas, calls, i, n - 1);
      var b, call, a := sagas[n - 1], calls[n - 1], sagas[n];
      assert Follows(b, call, a);
      CallKeepsHopeless(b, call, a, i);
      if call.Compensate? && MayCompensate(b.state) && call.submit(i).Some? {
        AcceptedHas(b.steps, call.submit, i, |b.steps|);
      }
    }
  }

  lemma {:induction false} AcceptedHas(steps: seq<WorkflowStep>, submit: nat -> Answer, i: nat, n: nat)
    requires i < n <= |steps| && Submits(steps[i]) && submit(i).Some?
    ensures (i, submit(i).value.0) in AcceptedBy(steps, submit, n)
    decreases n
  {
    if i < n - 1 {
      AcceptedHas(steps, submit, i, n - 1);
    }
  }

  /** The step's first submission is made and answered now. */
  ghost predicate AnsweredNow(s: WorkflowStep, marks: set<Mark>) {
    IsSubmitted(s) && Submission(s.id) !in marks
  }

  /** The step needs a compensation and has no Task for it, so a retry submits it, whatever was recorded before. */
  predicate IsSubmitted(s: WorkflowStep) {
    s.state == Completed && s.compensationText != "" && s.compensationTaskId == ""
  }

  /** The provider accepts one Task for each step that is submitted and answered, in step order. */
  lemma {:induction false} AcceptedTell(steps: seq<WorkflowStep>, submit: nat -> Answer, n: nat)
    requires n <= |steps|
    ensures var accepted := AcceptedBy(steps, submit, n);
            (forall j :: 0 <= j < |accepted| ==>
               var (i, id) := accepted[j];
               i < n && IsSubmitted(steps[i]) && submit(i).Some? && submit(i).value.0 == id) &&
            (forall i: nat :: i < n && IsSubmitted(steps[i]) && submit(i).Some? ==>
               (i, submit(i).value.0) in accepted) &&
            forall j, k :: 0 <= j < k < |accepted| ==> accepted[j].0 < accepted[k].0
  {
    if n > 0 {
      AcceptedTell(steps, submit, n - 1);
    }
  }

  /**
   What the submissions of a retry leave: a step that is submitted for the first time has the Task and the state that
   the provider answered, or a failure if it did not; every other step is as it was. The workflow has failed if any
   of these submissions did, and otherwise is being compensated, if this is the first try.
   */
  lemma SubmissionsTell(b: Saga, submit: nat -> Answer)
    ensures var after := AfterSubmissions(b.steps, b.marks, submit);
            |after| == |b.steps| &&
            forall i :: 0 <= i < |after| ==>
              if AnsweredNow(b.steps[i], b.marks) then
                after[i].compensationTaskId == (if submit(i).None? then "" else submit(i).value.0) &&
                after[i].compensationState == (if submit(i).None? then Some(Failed) else Some(submit(i).value.1)) &&
                after[i] == b.steps[i].(compensationTaskId := after[i].compensationTaskId,
                                        compensationState := after[i].compensationState)
              else after[i] == b.steps[i]
    ensures StateAfterSubmissions(b, submit) ==
            if exists i :: 0 <= i < |b.steps| && AnsweredNow(b.steps[i], b.marks) && submit(i).None? then WorkflowFailed
            else if Submission("started") in b.marks then b.state else WorkflowCompensating
  {
    FailureRecordedIff(b.steps, b.marks, submit, |b.steps|);
    var after := AfterSubmissions(b.steps, b.marks, submit);
    forall i | 0 <= i < |after| ensures after[i] == AfterSubmission(b.steps[i], b.marks, submit(i)) {
    }
  }

  lemma {:induction false} FailureRecordedIff(steps: seq<WorkflowStep>, marks: set<Mark>, submit: nat -> Answer, n: nat)
    requires n <= |steps|
    ensures RecordsFailure(steps, marks, submit, n)
            <==> exists i :: 0 <= i < n && AnsweredNow(steps[i], marks) && submit(i).None?
  {
    if n > 0 {
      FailureRecordedIff(steps, marks, submit, n - 1);
      assert AnsweredNow(steps[n - 1], marks) <==> Submits(steps[n - 1]) && Submission(steps[n - 1].id) !in marks;
    }
  }
}
