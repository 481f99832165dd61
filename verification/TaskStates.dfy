/**
 The states of a Task by name (TaskState in section 4.1.3 of the A2A Protocol 1.0 specification): what the rest of the
 project means by a Task that has ended, failed or waits.
 */
module TaskStates {
  import opened Model

  predicate Ended(s: TaskState) {
    s == Completed || s == Failed || s == Canceled || s == Rejected
  }

  predicate EndedBadly(s: TaskState) {
    s == Failed || s == Canceled || s == Rejected
  }

  predicate NeedsInput(s: TaskState) {
    s == InputRequired || s == AuthRequired
  }
}
