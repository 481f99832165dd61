/**
 What becomes of every item of a batch (internal/worker/outbox.go, RunOnce): it is acknowledged exactly if it was
 published, a dead letter exactly if it was not and has had its attempts, and otherwise free again, and not to be
 claimed before its retry time.
 */
module OutboxRound {
  import opened Wrappers
  import opened Model
  import opened Journal
  import opened JournalOps
  import opened JournalRefinement
  import opened JournalStoreImpl
  import opened BatchClaims
  import opened OutboxDelivery
  import opened OutboxWorker
  import opened Folds
  import opened Ordering
  import opened Backoff

  /** The lease's holder has the item, which is open. */
  ghost predicate Has(o: OutboxStore, lease: OutboxLease) {
    var state := StateOf(o, lease.item.id);
    lease.owner != "" && state.lease.owner == lease.owner && !state.acked && !state.deadLettered && !state.purged
  }

  /** The first n items of the batch are held, and the others are as they were. */
  ghost predicate HeldTo(was: OutboxStore, o: OutboxStore, keys: seq<string>, leases: seq<OutboxLease>, n: nat)
    requires |leases| == |keys|
  {
    o.items == was.items && (forall i :: 0 <= i < n && i < |keys| ==> Has(o, leases[i])) &&
    forall i :: n <= i < |keys| ==> StateOf(o, keys[i]) == StateOf(was, keys[i])
  }

  lemma ClaimHolds(sys: System, was: OutboxStore, keys: seq<string>, leases: seq<OutboxLease>, c: Claimant, n: nat)
    requires Batch(was, keys, leases, c) && n < |keys| && HeldTo(was, sys.mem.outbox, keys, leases, n)
    ensures HeldTo(was, Exec(sys, c.Outboxes(keys)[n]).mem.outbox, keys, leases, n + 1)
  {
    OutboxAfterExec(sys, c.Outboxes(keys)[n]);
    var id := keys[n];
    assert StateOf(sys.mem.outbox, id) == StateOf(was, id);
    assert OutboxClaimable(sys.mem.outbox, id, c.now);
    var after := Exec(sys, c.Outboxes(keys)[n]).mem.outbox;
    forall i | 0 <= i < n + 1 ensures Has(after, leases[i]) {
      assert c.OutboxLeaseFor(was, keys[i]) == Some(leases[i]);
      assert i < n ==> keys[i] != id && Has(sys.mem.outbox, leases[i]);
    }
  }

  lemma {:induction false} ClaimsHold(sys: System, keys: seq<string>, leases: seq<OutboxLease>, c: Claimant,
                                      trail: seq<System>, n: nat)
    requires Batch(sys.mem.outbox, keys, leases, c) && Passes(sys, c.Outboxes(keys), trail) && n <= |keys|
    ensures HeldTo(sys.mem.outbox, trail[n].mem.outbox, keys, leases, n)
  {
    if n > 0 {
      ClaimsHold(sys, keys, leases, c, trail, n - 1);
      ClaimHolds(trail[n - 1], sys.mem.outbox, keys, leases, c, n - 1);
    }
  }

  // One item

  /** The sink takes the item, or has its key already. */
  predicate IsPublished(sink: Sink, item: OutboxItem, luck: ItemLuck) {
    item.tenantId + ":" + item.dedupKey in sink.seen || luck.writes
  }

  predicate HadItsAttempts(lease: OutboxLease, l: Limits) {
    0 < l.maxAttempts <= lease.attempt
  }

  /** What becomes of an item in its turn, and that nothing else becomes of it until the store is as it is now. */
  ghost predicate Answered(sink: Sink, now: OutboxStore, lease: OutboxLease, luck: ItemLuck, l: Limits) {
    var id, state := lease.item.id, StateOf(now, lease.item.id);
    id in now.items && state.lease.owner == "" && !state.purged &&
    (state.acked <==> IsPublished(sink, lease.item, luck)) &&
    (state.deadLettered <==> !IsPublished(sink, lease.item, luck) && HadItsAttempts(lease, l)) &&
    (state.acked ==> state.ackedAt == luck.now) &&
    (state.deadLettered ==> state.deadLetterAt == luck.now && state.lastError == luck.reason) &&
    forall t :: OutboxClaimable(now, id, t) <==>
      !state.acked && !state.deadLettered &&
      t >= luck.now + Delay(lease.attempt, l.backoffs.base, l.backoffs.maximum)
  }

  lemma AnswerEffect(sys: System, lease: OutboxLease, ok: bool, luck: ItemLuck, l: Limits)
    requires Has(sys.mem.outbox, lease) && lease.item.id in sys.mem.outbox.items
    ensures var id := lease.item.id;
            var after := Exec(sys, OutboxCall(AnswerOp(lease, ok, luck, l))).mem.outbox;
            after.items == sys.mem.outbox.items &&
            (forall k :: k != id ==> StateOf(after, k) == StateOf(sys.mem.outbox, k)) &&
            forall sink :: IsPublished(sink, lease.item, luck) == ok ==> Answered(sink, after, lease, luck, l)
  {
    OutboxAfterExec(sys, OutboxCall(AnswerOp(lease, ok, luck, l)));
  }

  lemma ItemIsAnswered(p: Pair, lease: OutboxLease, luck: ItemLuck, l: Limits)
    requires Has(p.sys.mem.outbox, lease) && lease.item.id in p.sys.mem.outbox.items
    ensures var after := Deliver(p, lease, luck, l);
            Answered(p.sink, after.sys.mem.outbox, lease, luck, l) &&
            after.sys.mem.outbox.items == p.sys.mem.outbox.items &&
            forall k :: k != lease.item.id ==> StateOf(after.sys.mem.outbox, k) == StateOf(p.sys.mem.outbox, k)
  {
    AnswerEffect(p.sys, lease, Publish(p.sink, lease.item, luck.writes).1, luck, l);
  }

  // The batch

  /** The store and the sink as the items are delivered one after the other. */
  ghost predicate Round(trail: seq<Pair>, leases: seq<OutboxLease>, luck: nat -> ItemLuck, l: Limits) {
    |trail| == |leases| + 1 &&
    forall n :: 0 <= n < |leases| ==> trail[n + 1] == Deliver(trail[n], leases[n], luck(n), l)
  }

  /** The first n items have been answered, each in its turn, and the others are still held. */
  ghost predicate AnsweredTo(trail: seq<Pair>, leases: seq<OutboxLease>, n: nat, luck: nat -> ItemLuck, l: Limits)
    requires n < |trail| == |leases| + 1
  {
    trail[n].sys.mem.outbox.items == trail[0].sys.mem.outbox.items &&
    (forall i :: 0 <= i < n ==> Answered(trail[i].sink, trail[n].sys.mem.outbox, leases[i], luck(i), l)) &&
    forall i :: n <= i < |leases| ==> Has(trail[n].sys.mem.outbox, leases[i])
  }

  /** The leases are for different items, all of them stored. */
  ghost predicate DistinctItems(o: OutboxStore, leases: seq<OutboxLease>) {
    (forall i :: 0 <= i < |leases| ==> leases[i].item.id in o.items) &&
    forall i, j :: 0 <= i < j < |leases| ==> leases[i].item.id != leases[j].item.id
  }

  lemma AnswerStays(sink: Sink, now: OutboxStore, later: OutboxStore, lease: OutboxLease, luck: ItemLuck, l: Limits)
    requires Answered(sink, now, lease, luck, l) && later.items == now.items
    requires StateOf(later, lease.item.id) == StateOf(now, lease.item.id)
    ensures Answered(sink, later, lease, luck, l)
  {
    forall t ensures OutboxClaimable(later, lease.item.id, t) <==> OutboxClaimable(now, lease.item.id, t) {
    }
  }

  lemma OthersStayHeld(now: OutboxStore, next: OutboxStore, leases: seq<OutboxLease>, n: nat)
    requires n < |leases| && DistinctItems(now, leases)
    requires forall k :: k != leases[n].item.id ==> StateOf(next, k) == StateOf(now, k)
    requires forall i :: n <= i < |leases| ==> Has(now, leases[i])
    ensures forall i :: n < i < |leases| ==> Has(next, leases[i])
    ensures forall i :: 0 <= i < n ==> StateOf(next, leases[i].item.id) == StateOf(now, leases[i].item.id)
  {
    forall i | n < i < |leases| ensures Has(next, leases[i]) {
      assert leases[n].item.id != leases[i].item.id && Has(now, leases[i]);
      assert StateOf(next, leases[i].item.id) == StateOf(now, leases[i].item.id);
    }
  }

  lemma NextIsAnswered(trail: seq<Pair>, leases: seq<OutboxLease>, n: nat, luck: nat -> ItemLuck, l: Limits)
    requires n < |leases| && Round(trail, leases, luck, l) && AnsweredTo(trail, leases, n, luck, l)
    requires DistinctItems(trail[0].sys.mem.outbox, leases)
    ensures AnsweredTo(trail, leases, n + 1, luck, l)
  {
    var now, next := trail[n].sys.mem.outbox, trail[n + 1].sys.mem.outbox;
    ItemIsAnswered(trail[n], leases[n], luck(n), l);
    OthersStayHeld(now, next, leases, n);
    forall i | 0 <= i < n ensures Answered(trail[i].sink, next, leases[i], luck(i), l) {
      AnswerStays(trail[i].sink, now, next, leases[i], luck(i), l);
    }
  }

  lemma {:induction false} AllAnswered(trail: seq<Pair>, leases: seq<OutboxLease>, n: nat, luck: nat -> ItemLuck,
                                       l: Limits)
    requires n <= |leases| && Round(trail, leases, luck, l) && DistinctItems(trail[0].sys.mem.outbox, leases)
    requires forall i :: 0 <= i < |leases| ==> Has(trail[0].sys.mem.outbox, leases[i])
    ensures AnsweredTo(trail, leases, n, luck, l)
  {
    if n > 0 {
      AllAnswered(trail, leases, n - 1, luck, l);
      NextIsAnswered(trail, leases, n - 1, luck, l);
    }
  }

  lemma RoundTrail(start: Pair, leases: seq<OutboxLease>, luck: nat -> ItemLuck, l: Limits) returns (trail: seq<Pair>)
    ensures Round(trail, leases, luck, l) && trail[|leases|] == DeliverAll(start, leases, luck, l)
    ensures forall i :: 0 <= i <= |leases| ==> Fold(start, Delivering(leases, luck, l), i) == (trail[i], true)
  {
    var f := Delivering(leases, luck, l);
    FoldNeverRefused(start, f, |leases|);
    trail := FoldTrail(start, f, |leases|);
    forall n | 0 <= n < |leases| ensures trail[n + 1] == Deliver(trail[n], leases[n], luck(n), l) {
      assert f(trail[n], n) == Some(trail[n + 1]);
    }
  }

  lemma BatchIsDistinct(o: OutboxStore, keys: seq<string>, leases: seq<OutboxLease>, c: Claimant)
    requires Batch(o, keys, leases, c)
    ensures DistinctItems(o, leases)
  {
    forall i | 0 <= i < |keys| ensures leases[i].item.id == keys[i] {
      assert c.OutboxLeaseFor(o, keys[i]) == Some(leases[i]);
    }
  }

  /**
   Every item that RunOnce claims gets its answer: it ends up acknowledged exactly if the sink had its key or took it
   in its turn, a dead letter exactly if not and it had its attempts, and every other item is free again and can be
   claimed exactly from its retry time on.
   */
  lemma EveryItemIsAnswered(p: Pair, keys: seq<string>, leases: seq<OutboxLease>, c: Claimant, limit: nat,
                            luck: nat -> ItemLuck, l: Limits)
    requires var o := p.sys.mem.outbox;
             ItemsNamed(o) && c.Valid() && Leased(keys, c.OutboxLeases(o), leases) &&
             Selection(keys, OutboxCandidates(o, c.now), CreationRank(o.items), limit)
    ensures var start := Pair(Run(p.sys, c.Outboxes(keys)), p.sink);
            var after := DeliverAll(start, leases, luck, l);
            forall i :: 0 <= i < |leases| ==>
              Answered(Fold(start, Delivering(leases, luck, l), i).0.sink, after.sys.mem.outbox, leases[i], luck(i), l)
  {
    SelectionIsBatch(p.sys.mem.outbox, keys, leases, c, limit);
    BatchIsDistinct(p.sys.mem.outbox, keys, leases, c);
    var claims := RunTrail(p.sys, c.Outboxes(keys));
    ClaimsHold(p.sys, keys, leases, c, claims, |keys|);
    var trail := RoundTrail(Pair(claims[|keys|], p.sink), leases, luck, l);
    AllAnswered(trail, leases, |leases|, luck, l);
  }
}
