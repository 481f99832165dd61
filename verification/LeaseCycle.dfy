/**
 What each call makes of a lease (internal/core/store.go): when a claim, a renewal or a completion succeeds, and from
 when on the resource can be claimed again. One group of laws for each of the four lease tables.
 */
module LeaseCycle {
  import opened Wrappers
  import opened Model
  import opened TaskStates
  import opened Journal
  import opened JournalOps

  /** Nobody holds the lease at this time, and it is not put off. */
  predicate IsFree(lease: Lease, now: Time) {
    lease.availableAt <= now && (lease.owner == "" || lease.expiresAt <= now)
  }

  /** This owner holds the lease and may still renew it. */
  predicate IsHeldBy(lease: Lease, owner: string, now: Time) {
    lease.owner == owner && now < lease.expiresAt
  }

  /** The lease after a claim: one attempt more, and blocked until its expiry. */
  predicate IsClaim(before: Lease, after: Lease, owner: string, until: Time) {
    after.owner == owner && after.expiresAt == until && after.attempt == before.attempt + 1 &&
    after.availableAt == before.availableAt
  }

  // Work

  function WorkLeaseAt(m: State, key: Key): Lease {
    Get(m.leases, key, NO_LEASE)
  }

  /** The Task was given to a provider and has not ended. */
  predicate WorkIsOpen(m: State, key: Key) {
    key in m.work.tasks && !Ended(m.work.tasks[key].state) && m.work.tasks[key].remoteTaskId != ""
  }

  predicate CanClaimWork(m: State, key: Key, t: Time) {
    WorkClaimable(m.work.tasks, m.leases, key, t)
  }

  /** Other Tasks' leases are left alone, and so is everything else. */
  ghost predicate OnlyWorkLease(a: State, b: State, key: Key) {
    b == a.(leases := b.leases) && forall k :: k != key ==> WorkLeaseAt(b, k) == WorkLeaseAt(a, k)
  }

  lemma WorkIsClaimed(sys: System, key: Key, owner: string, now: Time, duration: int)
    ensures var before, after := sys.mem, Exec(sys, WorkCall(ClaimWork(key, owner, now, duration))).mem;
            if owner != "" && duration > 0 && WorkIsOpen(before, key) && IsFree(WorkLeaseAt(before, key), now) then
              IsClaim(WorkLeaseAt(before, key), WorkLeaseAt(after, key), owner, now + duration) &&
              OnlyWorkLease(before, after, key) &&
              forall t :: CanClaimWork(after, key, t) <==> t >= now + duration
            else after == before
  {
  }

  lemma WorkIsRenewed(sys: System, key: Key, owner: string, now: Time, duration: int)
    requires owner != ""
    ensures var before, after := sys.mem, Exec(sys, WorkCall(RenewWork(key, owner, now, duration))).mem;
            if IsHeldBy(WorkLeaseAt(before, key), owner, now) then
              WorkLeaseAt(after, key) == WorkLeaseAt(before, key).(expiresAt := now + duration) &&
              OnlyWorkLease(before, after, key)
            else after == before
  {
  }

  lemma WorkIsReleased(sys: System, key: Key, owner: string, availableAt: Time, reset: bool)
    requires owner != ""
    ensures var before, after := sys.mem, Exec(sys, WorkCall(ReleaseWork(key, owner, availableAt, reset))).mem;
            if WorkLeaseAt(before, key).owner == owner then
              WorkLeaseAt(after, key).owner == "" && OnlyWorkLease(before, after, key) &&
              WorkLeaseAt(after, key).attempt == (if reset then 0 else WorkLeaseAt(before, key).attempt) &&
              forall t :: CanClaimWork(after, key, t) <==> WorkIsOpen(after, key) && t >= availableAt
            else after == before
  {
  }

  // Inbox items

  function InboxStateAt(m: State, id: string): InboxState {
    Get(m.inbox.states, id, NO_INBOX_STATE)
  }

  predicate InboxIsOpen(m: State, id: string) {
    id in m.inbox.items && !InboxStateAt(m, id).acked
  }

  ghost predicate OnlyInboxState(a: State, b: State, id: string) {
    b == a.(inbox := a.inbox.(states := b.inbox.states)) &&
    forall k :: k != id ==> InboxStateAt(b, k) == InboxStateAt(a, k)
  }

  lemma InboxIsClaimed(sys: System, id: string, owner: string, now: Time, duration: int)
    ensures var before, after := sys.mem, Exec(sys, InboxCall(ClaimInbox(id, owner, now, duration))).mem;
            if owner != "" && duration > 0 && InboxIsOpen(before, id) && IsFree(InboxStateAt(before, id).lease, now)
            then
              IsClaim(InboxStateAt(before, id).lease, InboxStateAt(after, id).lease, owner, now + duration) &&
              OnlyInboxState(before, after, id) &&
              forall t :: InboxClaimable(after.inbox, id, t) <==> t >= now + duration
            else after == before
  {
  }

  lemma InboxIsRenewed(sys: System, id: string, owner: string, now: Time, duration: int)
    requires owner != ""
    ensures var before, after := sys.mem, Exec(sys, InboxCall(RenewInbox(id, owner, now, duration))).mem;
            var state := InboxStateAt(before, id);
            if IsHeldBy(state.lease, owner, now) && !state.acked then
              InboxStateAt(after, id) == state.(lease := state.lease.(expiresAt := now + duration)) &&
              OnlyInboxState(before, after, id)
            else after == before
  {
  }

  /** Acknowledged for good, or to be tried again from a time on. */
  lemma InboxIsAnswered(sys: System, id: string, owner: string, availableAt: Time)
    requires owner != ""
    ensures var before, acked := sys.mem, Exec(sys, InboxCall(AckInbox(id, owner))).mem;
            var held := InboxStateAt(before, id).lease.owner == owner && !InboxStateAt(before, id).acked;
            if held then
              InboxStateAt(acked, id).acked && InboxStateAt(acked, id).lease.owner == "" &&
              OnlyInboxState(before, acked, id) && forall t :: !InboxClaimable(acked.inbox, id, t)
            else acked == before
    ensures var before, retried := sys.mem, Exec(sys, InboxCall(RetryInbox(id, owner, availableAt))).mem;
            var held := InboxStateAt(before, id).lease.owner == owner && !InboxStateAt(before, id).acked;
            if held then
              InboxStateAt(retried, id).lease.owner == "" && OnlyInboxState(before, retried, id) &&
              InboxStateAt(retried, id).lease.attempt == InboxStateAt(before, id).lease.attempt &&
              forall t :: InboxClaimable(retried.inbox, id, t) <==> id in retried.inbox.items && t >= availableAt
            else retried == before
  {
  }

  // Outbox items

  function OutboxStateAt(m: State, id: string): OutboxState {
    Get(m.outbox.states, id, NO_OUTBOX_STATE)
  }

  predicate OutboxIsOpen(m: State, id: string) {
    id in m.outbox.items &&
    !OutboxStateAt(m, id).acked && !OutboxStateAt(m, id).deadLettered && !OutboxStateAt(m, id).purged
  }

  ghost predicate OnlyOutboxState(a: State, b: State, id: string) {
    b == a.(outbox := a.outbox.(states := b.outbox.states)) &&
    forall k :: k != id ==> OutboxStateAt(b, k) == OutboxStateAt(a, k)
  }

  lemma OutboxIsClaimed(sys: System, id: string, owner: string, now: Time, duration: int)
    ensures var before, after := sys.mem, Exec(sys, OutboxCall(ClaimOutbox(id, owner, now, duration))).mem;
            if owner != "" && duration > 0 && OutboxIsOpen(before, id) && IsFree(OutboxStateAt(before, id).lease, now)
            then
              IsClaim(OutboxStateAt(before, id).lease, OutboxStateAt(after, id).lease, owner, now + duration) &&
              OnlyOutboxState(before, after, id) &&
              forall t :: OutboxClaimable(after.outbox, id, t) <==> t >= now + duration
            else after == before
  {
  }

  lemma OutboxIsRenewed(sys: System, id: string, owner: string, now: Time, duration: int)
    requires owner != ""
    ensures var before, after := sys.mem, Exec(sys, OutboxCall(RenewOutbox(id, owner, now, duration))).mem;
            var state := OutboxStateAt(before, id);
            if IsHeldBy(state.lease, owner, now) && !state.acked then
              OutboxStateAt(after, id) == state.(lease := state.lease.(expiresAt := now + duration)) &&
              OnlyOutboxState(before, after, id)
            else after == before
  {
  }

  /** The item is held by the owner, and open. */
  predicate OutboxIsHeld(m: State, id: string, owner: string) {
    OutboxStateAt(m, id).lease.owner == owner && !OutboxStateAt(m, id).acked && !OutboxStateAt(m, id).deadLettered
  }

  /** Published for good. */
  lemma OutboxIsAcked(sys: System, id: string, owner: string, at: Time)
    requires owner != "" && OutboxIsHeld(sys.mem, id, owner)
    ensures var before, after := sys.mem, Exec(sys, OutboxCall(AckOutbox(id, owner, at))).mem;
            var state := OutboxStateAt(after, id);
            state.acked && state.ackedAt == at && !state.deadLettered && state.lease.owner == "" &&
            OnlyOutboxState(before, after, id)
  {
  }

  /** Given up. */
  lemma OutboxIsDeadLettered(sys: System, id: string, owner: string, at: Time, reason: string)
    requires owner != "" && OutboxIsHeld(sys.mem, id, owner)
    ensures var before, after := sys.mem, Exec(sys, OutboxCall(DeadLetterOutbox(id, owner, reason, at))).mem;
            var state := OutboxStateAt(after, id);
            state.deadLettered && state.deadLetterAt == at && state.lastError == reason && !state.acked &&
            state.lease.owner == "" && OnlyOutboxState(before, after, id)
  {
  }

  /** To be tried again from a time on. */
  lemma OutboxIsRetried(sys: System, id: string, owner: string, at: Time)
    requires owner != "" && OutboxIsHeld(sys.mem, id, owner)
    ensures var before, after := sys.mem, Exec(sys, OutboxCall(RetryOutbox(id, owner, at))).mem;
            var state := OutboxStateAt(after, id);
            !state.acked && !state.deadLettered && state.lease.owner == "" && OnlyOutboxState(before, after, id) &&
            state.lease.attempt == OutboxStateAt(before, id).lease.attempt &&
            forall t :: OutboxClaimable(after.outbox, id, t) <==> OutboxIsOpen(after, id) && t >= at
  {
  }

  /** Whoever does not hold an open item changes nothing by answering for it. */
  lemma OutboxAnswerNeedsLease(sys: System, id: string, owner: string, at: Time, reason: string)
    requires owner != "" && !OutboxIsHeld(sys.mem, id, owner)
    requires OutboxStateAt(sys.mem, id).lease.owner == owner ==> !OutboxStateAt(sys.mem, id).deadLettered
    ensures Exec(sys, OutboxCall(AckOutbox(id, owner, at))).mem == sys.mem
    ensures Exec(sys, OutboxCall(DeadLetterOutbox(id, owner, reason, at))).mem == sys.mem
    ensures Exec(sys, OutboxCall(RetryOutbox(id, owner, at))).mem == sys.mem
  {
  }

  // Dead letters and finished items

  /** A dead letter of the tenant is open again from the time of its replay on; nothing else is replayed. */
  lemma DeadLetterIsReplayed(sys: System, tenant: string, id: string, now: Time)
    ensures var before, after := sys.mem, Exec(sys, OutboxCall(ReplayOutbox(tenant, id, now))).mem;
            var was, state := OutboxStateAt(before, id), OutboxStateAt(after, id);
            if id in before.outbox.items && before.outbox.items[id].tenantId == tenant && was.deadLettered &&
               !was.purged
            then
              !state.deadLettered && state.lease.owner == "" && state.lastError == "" &&
              state.deadLetterAt == ZERO_TIME && state.acked == was.acked &&
              state.lease.attempt == was.lease.attempt && OnlyOutboxState(before, after, id) &&
              (!was.acked ==> forall t :: OutboxClaimable(after.outbox, id, t) <==> t >= now)
            else after == before
  {
  }

  /** A finished item of the tenant from before the cutoff is purged for good; nothing else is. */
  lemma FinishedItemIsPurged(sys: System, tenant: string, id: string, cutoff: Time, now: Time)
    ensures var before, after := sys.mem, Exec(sys, OutboxCall(PurgeOutbox(tenant, id, cutoff, now))).mem;
            var was, state := OutboxStateAt(before, id), OutboxStateAt(after, id);
            if tenant != "" && id in before.outbox.items && before.outbox.items[id].tenantId == tenant &&
               before.outbox.items[id].createdAt < cutoff && (was.acked || was.deadLettered) && !was.purged
            then
              state.purged && state.purgedAt == now && state.acked == was.acked &&
              state.deadLettered == was.deadLettered && OnlyOutboxState(before, after, id) &&
              forall t :: !OutboxClaimable(after.outbox, id, t)
            else after == before
  {
  }

  // Artifacts to be deleted

  function DeletionLeaseAt(m: State, key: Key): Lease {
    Get(m.artifacts.leases, key, NO_LEASE)
  }

  /** The object is stored or on its way out, and has expired. */
  predicate DeletionIsDue(m: State, key: Key, t: Time) {
    key in m.artifacts.objects && m.artifacts.objects[key].expiresAt <= t &&
    var status := m.artifacts.objects[key].status;
    (status == Available || status == Quarantined || status == Deleting)
  }

  lemma DeletionIsClaimed(sys: System, key: Key, owner: string, now: Time, duration: int)
    requires key in sys.mem.artifacts.objects ==> sys.mem.artifacts.objects[key].ResourceKey() == key
    ensures var before, after := sys.mem, Exec(sys, ArtifactCall(ClaimExpired(key, owner, now, duration))).mem;
            if owner != "" && duration > 0 && DeletionIsDue(before, key, now) &&
               IsFree(DeletionLeaseAt(before, key), now)
            then
              IsClaim(DeletionLeaseAt(before, key), DeletionLeaseAt(after, key), owner, now + duration) &&
              after.artifacts.objects ==
                before.artifacts.objects[key := before.artifacts.objects[key].(status := Deleting, updatedAt := now)] &&
              after.artifacts.usage == before.artifacts.usage &&
              forall t :: DeletionClaimable(after.artifacts, key, t) <==> t >= now + duration
            else after == before
  {
  }

  lemma DeletionIsRenewed(sys: System, key: Key, owner: string, now: Time, duration: int)
    requires owner != ""
    ensures var before, after := sys.mem, Exec(sys, ArtifactCall(RenewArtifact(key, owner, now, duration))).mem;
            if IsHeldBy(DeletionLeaseAt(before, key), owner, now) then
              DeletionLeaseAt(after, key) == DeletionLeaseAt(before, key).(expiresAt := now + duration) &&
              after.artifacts.objects == before.artifacts.objects && after.artifacts.usage == before.artifacts.usage
            else after == before
  {
  }

  lemma DeletionIsPutOff(sys: System, key: Key, owner: string, availableAt: Time)
    requires owner != ""
    ensures var before, after := sys.mem, Exec(sys, ArtifactCall(RetryDeletion(key, owner, availableAt))).mem;
            if DeletionLeaseAt(before, key).owner == owner then
              DeletionLeaseAt(after, key).owner == "" && after.artifacts.objects == before.artifacts.objects &&
              DeletionLeaseAt(after, key).attempt == DeletionLeaseAt(before, key).attempt &&
              forall t :: DeletionClaimable(after.artifacts, key, t) <==>
                DeletionIsDue(after, key, t) && t >= availableAt
            else after == before
  {
  }
}
