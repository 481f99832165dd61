/**
 What a batch claim takes and gives (internal/core/store.go): who may be claimed, in which order, and what each lease
 says. These are the candidates, ranks and leases that the claiming methods of JournalStore speak of.
 */
module Selections {
  import opened Wrappers
  import opened Model
  import opened Journal
  import opened JournalOps
  import opened JournalStoreImpl
  import opened LeaseCycle
  import opened Ordering

  // Candidates

  lemma WorkCandidatesAre(m: State, now: Time, key: Key)
    ensures key in WorkCandidates(m.work.tasks, m.leases, now)
            <==> WorkIsOpen(m, key) && IsFree(WorkLeaseAt(m, key), now)
  {
  }

  lemma InboxCandidatesAre(m: State, now: Time, id: string)
    ensures id in InboxCandidates(m.inbox, now) <==> InboxIsOpen(m, id) && IsFree(InboxStateAt(m, id).lease, now)
  {
  }

  lemma OutboxCandidatesAre(m: State, now: Time, id: string)
    ensures id in OutboxCandidates(m.outbox, now) <==> OutboxIsOpen(m, id) && IsFree(OutboxStateAt(m, id).lease, now)
  {
  }

  lemma DeletionCandidatesAre(m: State, now: Time, key: Key)
    ensures key in DeletionCandidates(m.artifacts, now)
            <==> DeletionIsDue(m, key, now) && IsFree(DeletionLeaseAt(m, key), now)
  {
  }

  // Order

  predicate KeyBefore(a: Key, b: Key) {
    Less(a.tenant, b.tenant) || (a.tenant == b.tenant && Less(a.id, b.id))
  }

  /** Work goes by priority, the highest first, and then by key. */
  lemma WorkGoesByPriority(tasks: map<Key, Task>, a: Key, b: Key)
    requires a in tasks && b in tasks
    ensures Before(WorkRank(tasks)(a), WorkRank(tasks)(b))
            <==> tasks[a].priority > tasks[b].priority || (tasks[a].priority == tasks[b].priority && KeyBefore(a, b))
  {
  }

  /** Outbox items go by age, the oldest first, and then by ID; inbox items by ID; objects by key. */
  lemma ItemsGoByAge(items: map<string, OutboxItem>, a: string, b: string, k: Key, l: Key)
    requires a in items && b in items
    ensures Before(CreationRank(items)(a), CreationRank(items)(b))
            <==> items[a].createdAt < items[b].createdAt || (items[a].createdAt == items[b].createdAt && Less(a, b))
    ensures Before(IdRank(a), IdRank(b)) <==> Less(a, b)
    ensures Before(KeyRank(k), KeyRank(l)) <==> KeyBefore(k, l)
  {
    LessIrreflexive("");
  }

  // Leases

  /** Every lease is for what is stored, for the claimant, until its expiry, and counts one attempt more. */
  lemma LeasesAre(c: Claimant, m: State, key: Key, id: string)
    ensures key in m.work.tasks ==>
              c.WorkLeaseFor(m.work.tasks, m.leases, key) ==
                Some(WorkLease(m.work.tasks[key], c.owner, c.now + c.duration, WorkLeaseAt(m, key).attempt + 1))
    ensures id in m.inbox.items ==>
              c.InboxLeaseFor(m.inbox, id) ==
                Some(InboxLease(m.inbox.items[id], c.owner, c.now + c.duration, InboxStateAt(m, id).lease.attempt + 1))
    ensures id in m.outbox.items ==>
              c.OutboxLeaseFor(m.outbox, id) ==
                Some(OutboxLease(m.outbox.items[id], c.owner, c.now + c.duration,
                                 OutboxStateAt(m, id).lease.attempt + 1))
    ensures key in m.artifacts.objects ==>
              c.DeletionLeaseFor(m.artifacts, key) ==
                Some(DeletionLease(m.artifacts.objects[key].(status := Deleting, updatedAt := c.now), c.owner,
                                   c.now + c.duration, DeletionLeaseAt(m, key).attempt + 1))
  {
  }
}
