/**
 The store's four lease tables (work, inbox, outbox, artifact deletion) over every run: each is a
 lease machine, so claims exclude each other and only the claimant completes.
 */
module LeaseExclusion {
  import opened Wrappers
  import opened Model
  import opened Journal
  import opened JournalOps
  import opened JournalRefinement
  import opened OutboxMachine
  import opened LeaseMachine

  datatype Resource = WorkOn(key: Key) | InboxEntry(id: string) | OutboxEntry(id: string) | DeletionOf(key: Key)

  function LeaseOf(s: State, r: Resource): Lease {
    match r
    case WorkOn(k) => Get(s.leases, k, NO_LEASE)
    case InboxEntry(id) => Get(s.inbox.states, id, NO_INBOX_STATE).lease
    case OutboxEntry(id) => Get(s.outbox.states, id, NO_OUTBOX_STATE).lease
    case DeletionOf(k) => Get(s.artifacts.leases, k, NO_LEASE)
  }

  function View(s: State, r: Resource): LeaseView {
    LeaseView(LeaseOf(s, r).owner, LeaseOf(s, r).expiresAt)
  }

  function WorkEvent(op: WorkOp): LeaseEvent {
    match op
    case ClaimWork(_, owner, now, duration) => Claimed(owner, now, now + duration)
    case RenewWork(_, owner, now, duration) => Renewed(owner, now, now + duration)
    case ReleaseWork(_, owner, _, _) => Finished(owner)
  }

  function InboxEvent(op: InboxOp): LeaseEvent {
    match op
    case EnqueueInbox(_) => Quiet
    case ClaimInbox(_, owner, now, duration) => Claimed(owner, now, now + duration)
    case RenewInbox(_, owner, now, duration) => Renewed(owner, now, now + duration)
    case AckInbox(_, owner) => Finished(owner)
    case RetryInbox(_, owner, _) => Finished(owner)
  }

  function OutboxEvent(op: OutboxOp): LeaseEvent {
    match op
    case ClaimOutbox(_, owner, now, duration) => Claimed(owner, now, now + duration)
    case RenewOutbox(_, owner, now, duration) => Renewed(owner, now, now + duration)
    case AckOutbox(_, owner, _) => Finished(owner)
    case RetryOutbox(_, owner, _) => Finished(owner)
    case DeadLetterOutbox(_, owner, _, _) => Finished(owner)
    case _ => Quiet
  }

  function DeletionEvent(op: ArtifactOp): LeaseEvent {
    match op
    case ClaimExpired(_, owner, now, duration) => Claimed(owner, now, now + duration)
    case RenewArtifact(_, owner, now, duration) => Renewed(owner, now, now + duration)
    case CompleteDeletion(_, owner, _) => Finished(owner)
    case RetryDeletion(_, owner, _) => Finished(owner)
    case _ => Quiet
  }

  function OutboxTarget(op: OutboxOp): string {
    if op.EnqueueOutbox? then "" else op.id
  }

  function DeletionTarget(op: ArtifactOp): Key {
    if op.ReserveArtifact? then op.obj.ResourceKey() else op.key
  }

  /** What an operation, run in a state, does to a resource's lease: nothing unless it succeeds. */
  function EventOf(s: State, op: Op, r: Resource): LeaseEvent {
    match r
    case WorkOn(k) =>
      if op.WorkCall? && op.work.key == k && Decide(s, op).Commit? then WorkEvent(op.work) else Quiet
    case InboxEntry(id) =>
      if op.InboxCall? && !op.inbox.EnqueueInbox? && op.inbox.id == id && Decide(s, op).Commit?
      then InboxEvent(op.inbox) else Quiet
    case OutboxEntry(id) =>
      if op.OutboxCall? && OutboxTarget(op.outbox) == id && Decide(s, op).Commit?
      then OutboxEvent(op.outbox) else Quiet
    case DeletionOf(k) =>
      if op.ArtifactCall? && DeletionTarget(op.artifact) == k && Decide(s, op).Commit?
      then DeletionEvent(op.artifact) else Quiet
  }

  lemma WorkOpIsAStep(tasks: map<Key, Task>, leases: map<Key, Lease>, op: WorkOp, k: Key)
    requires DecideWork(tasks, leases, op).Commit?
    ensures var r := DecideWork(tasks, leases, op).record;
            var before, after := Get(leases, k, NO_LEASE), Get(leases[r.taskKey := r.lease], k, NO_LEASE);
            Step(LeaseView(before.owner, before.expiresAt), if op.key == k then WorkEvent(op) else Quiet,
                 LeaseView(after.owner, after.expiresAt))
  {
  }

  lemma WorkIsALease(sys: System, op: Op, k: Key)
    requires Refines(Replay(sys.file), sys.mem, sys.pruned)
    ensures Step(View(sys.mem, WorkOn(k)), EventOf(sys.mem, op, WorkOn(k)), View(Exec(sys, op).mem, WorkOn(k)))
  {
    LeasesAfterExec(sys, op);
    if op.WorkCall? && DecideWork(sys.mem.work.tasks, sys.mem.leases, op.work).Commit? {
      WorkOpIsAStep(sys.mem.work.tasks, sys.mem.leases, op.work, k);
    }
  }

  lemma InboxOpIsAStep(i: InboxStore, op: InboxOp, id: string)
    requires DecideInbox(i, op).Commit?
    ensures var before := Get(i.states, id, NO_INBOX_STATE).lease;
            var after := Get(InboxAfter(i, DecideInbox(i, op).record).states, id, NO_INBOX_STATE).lease;
            Step(LeaseView(before.owner, before.expiresAt),
                 if !op.EnqueueInbox? && op.id == id then InboxEvent(op) else Quiet,
                 LeaseView(after.owner, after.expiresAt))
  {
  }

  lemma InboxIsALease(sys: System, op: Op, id: string)
    requires Refines(Replay(sys.file), sys.mem, sys.pruned)
    ensures Step(View(sys.mem, InboxEntry(id)), EventOf(sys.mem, op, InboxEntry(id)),
                 View(Exec(sys, op).mem, InboxEntry(id)))
  {
    InboxAfterExec(sys, op);
    if op.InboxCall? && DecideInbox(sys.mem.inbox, op.inbox).Commit? {
      InboxOpIsAStep(sys.mem.inbox, op.inbox, id);
    }
  }

  lemma OutboxOpIsAStep(o: OutboxStore, op: OutboxOp, id: string)
    requires OutboxInvariant(o) && DecideOutbox(o, op).Commit?
    ensures var before := Get(o.states, id, NO_OUTBOX_STATE).lease;
            var after := Get(OutboxAfter(o, DecideOutbox(o, op).record).states, id, NO_OUTBOX_STATE).lease;
            Step(LeaseView(before.owner, before.expiresAt),
                 if OutboxTarget(op) == id then OutboxEvent(op) else Quiet,
                 LeaseView(after.owner, after.expiresAt))
  {
  }

  lemma OutboxIsALease(sys: System, op: Op, id: string)
    requires Refines(Replay(sys.file), sys.mem, sys.pruned) && OutboxInvariant(sys.mem.outbox)
    ensures Step(View(sys.mem, OutboxEntry(id)), EventOf(sys.mem, op, OutboxEntry(id)),
                 View(Exec(sys, op).mem, OutboxEntry(id)))
  {
    OutboxAfterExec(sys, op);
    if op.OutboxCall? && DecideOutbox(sys.mem.outbox, op.outbox).Commit? {
      OutboxOpIsAStep(sys.mem.outbox, op.outbox, id);
    }
  }

  lemma DeletionOpIsAStep(a: ArtifactStore, op: ArtifactOp, k: Key)
    requires DecideArtifact(a, op).Commit?
    ensures var before := Get(a.leases, k, NO_LEASE);
            var after := Get(ArtifactsAfter(a, DecideArtifact(a, op).record).leases, k, NO_LEASE);
            Step(LeaseView(before.owner, before.expiresAt),
                 if DeletionTarget(op) == k then DeletionEvent(op) else Quiet,
                 LeaseView(after.owner, after.expiresAt))
  {
  }

  lemma DeletionIsALease(sys: System, op: Op, k: Key)
    requires Refines(Replay(sys.file), sys.mem, sys.pruned)
    ensures Step(View(sys.mem, DeletionOf(k)), EventOf(sys.mem, op, DeletionOf(k)),
                 View(Exec(sys, op).mem, DeletionOf(k)))
  {
    ArtifactsAfterExec(sys, op);
    if op.ArtifactCall? && DecideArtifact(sys.mem.artifacts, op.artifact).Commit? {
      DeletionOpIsAStep(sys.mem.artifacts, op.artifact, k);
    }
  }

  function Views(ops: seq<Op>, r: Resource): (views: seq<LeaseView>)
    ensures |views| == |ops| + 1
  {
    if ops == [] then [View(EMPTY, r)]
    else Views(ops[..|ops| - 1], r) + [View(Run(INITIAL, ops).mem, r)]
  }

  function Events(ops: seq<Op>, r: Resource): (events: seq<LeaseEvent>)
    ensures |events| == |ops|
  {
    if ops == [] then []
    else Events(ops[..|ops| - 1], r) + [EventOf(Run(INITIAL, ops[..|ops| - 1]).mem, ops[|ops| - 1], r)]
  }

  lemma {:induction false} ViewsEndAtRun(ops: seq<Op>, r: Resource)
    ensures Views(ops, r)[|ops|] == View(Run(INITIAL, ops).mem, r)
  {
  }

  lemma {:induction false} EventAt(ops: seq<Op>, r: Resource, i: nat)
    requires i < |ops|
    ensures Events(ops, r)[i] == EventOf(Run(INITIAL, ops[..i]).mem, ops[i], r)
  {
    if i < |ops| - 1 {
      EventAt(ops[..|ops| - 1], r, i);
      assert ops[..|ops| - 1][..i] == ops[..i];
    }
  }

  /** Along every run, each resource's lease is a history of the lease machine. */
  lemma {:induction false} RunIsAHistory(ops: seq<Op>, r: Resource)
    requires NamedLeases(ops)
    ensures History(Views(ops, r), Events(ops, r))
  {
    if ops != [] {
      var earlier := ops[..|ops| - 1];
      RunIsAHistory(earlier, r);
      ViewsEndAtRun(earlier, r);
      ReplayRestoresMemory(earlier);
      OutboxAlwaysConsistent(earlier);
      var sys, op := Run(INITIAL, earlier), ops[|ops| - 1];
      match r {
        case WorkOn(k) => WorkIsALease(sys, op, k);
        case InboxEntry(id) => InboxIsALease(sys, op, id);
        case OutboxEntry(id) => OutboxIsALease(sys, op, id);
        case DeletionOf(k) => DeletionIsALease(sys, op, k);
      }
    }
  }

  /** Operation i claims resource r, and for whom and until when. */
  ghost predicate Claims(ops: seq<Op>, i: nat, r: Resource, owner: string, now: Time, until: Time)
    requires i < |ops|
  {
    EventOf(Run(INITIAL, ops[..i]).mem, ops[i], r) == Claimed(owner, now, until)
  }

  /** Operation i claims or renews r for a named owner, until the given time. */
  ghost predicate HoldsUntil(ops: seq<Op>, i: nat, r: Resource, until: Time)
    requires i < |ops|
  {
    var e := EventOf(Run(INITIAL, ops[..i]).mem, ops[i], r);
    Extends(e) && e.until == until
  }

  ghost predicate LeavesLeaseAlone(ops: seq<Op>, m: nat, r: Resource)
    requires m < |ops|
  {
    var e := EventOf(Run(INITIAL, ops[..m]).mem, ops[m], r);
    !Extends(e) && !e.Finished?
  }

  ghost predicate Completes(ops: seq<Op>, j: nat, r: Resource, owner: string)
    requires j < |ops|
  {
    EventOf(Run(INITIAL, ops[..j]).mem, ops[j], r) == Finished(owner)
  }

  /**
   Lease exclusion, for all four tables and every run: between a claim or renewal and its expiry,
   unless something completes it, no claim of the same resource succeeds.
   */
  lemma NoClaimWhileHeld(ops: seq<Op>, r: Resource, i: nat, j: nat, until: Time, owner: string, now: Time, until2: Time)
    requires NamedLeases(ops) && i < j < |ops|
    requires HoldsUntil(ops, i, r, until)
    requires forall m :: i < m < j ==> LeavesLeaseAlone(ops, m, r)
    requires Claims(ops, j, r, owner, now, until2)
    ensures now >= until
  {
    RunIsAHistory(ops, r);
    var events := Events(ops, r);
    EventAt(ops, r, i);
    EventAt(ops, r, j);
    forall m | i < m < j ensures !Extends(events[m]) && !events[m].Finished? {
      EventAt(ops, r, m);
      assert LeavesLeaseAlone(ops, m, r);
    }
    Exclusion(Views(ops, r), events, i, j);
  }

  ghost predicate Renews(ops: seq<Op>, j: nat, r: Resource, owner: string, now: Time)
    requires j < |ops|
  {
    var e := EventOf(Run(INITIAL, ops[..j]).mem, ops[j], r);
    e.Renewed? && e.owner == owner && e.now == now
  }

  /**
   After a claim or renewal that nothing has completed, only its owner renews, and only before the expiry it
   was given.
   */
  lemma OnlyHolderRenews(ops: seq<Op>, r: Resource, i: nat, j: nat, until: Time, owner: string, now: Time)
    requires NamedLeases(ops) && i < j < |ops|
    requires HoldsUntil(ops, i, r, until)
    requires forall m :: i < m < j ==> LeavesLeaseAlone(ops, m, r)
    requires Renews(ops, j, r, owner, now)
    ensures owner == EventOf(Run(INITIAL, ops[..i]).mem, ops[i], r).owner && now < until
  {
    RunIsAHistory(ops, r);
    var events := Events(ops, r);
    EventAt(ops, r, i);
    EventAt(ops, r, j);
    forall m | i < m < j ensures !Extends(events[m]) && !events[m].Finished? {
      EventAt(ops, r, m);
      assert LeavesLeaseAlone(ops, m, r);
    }
    RenewalBelongsToHolder(Views(ops, r), events, i, j);
  }

  /**
   A completion by a named owner succeeds only for the owner of the latest claim, which nothing has
   completed in between.
   */
  lemma OnlyClaimantCompletes(ops: seq<Op>, r: Resource, j: nat, owner: string) returns (i: nat, now: Time, until: Time)
    requires NamedLeases(ops) && j < |ops| && owner != ""
    requires Completes(ops, j, r, owner)
    ensures i < j && Claims(ops, i, r, owner, now, until)
    ensures forall m :: i < m < j ==>
              var e := EventOf(Run(INITIAL, ops[..m]).mem, ops[m], r);
              !e.Claimed? && !e.Finished?
  {
    RunIsAHistory(ops, r);
    var events := Events(ops, r);
    EventAt(ops, r, j);
    i := CompletionBelongsToClaimant(Views(ops, r), events, j);
    EventAt(ops, r, i);
    now, until := events[i].now, events[i].until;
    forall m | i < m < j
      ensures var e := EventOf(Run(INITIAL, ops[..m]).mem, ops[m], r); !e.Claimed? && !e.Finished?
    {
      EventAt(ops, r, m);
    }
  }
}
