/**
 The outbox worker (internal/worker/outbox.go, RunOnce): what it does with a batch, and that this is a legal run of
 OutboxDelivery's world.
 */
module OutboxWorker {
  import opened Wrappers
  import opened Model
  import opened Journal
  import opened JournalOps
  import opened JournalRefinement
  import opened JournalStoreImpl
  import opened BatchClaims
  import opened OutboxDelivery
  import opened Folds
  import opened Worlds
  import opened Ordering
  import opened Backoff

  datatype Limits = Limits(maxAttempts: nat, backoffs: Backoffs)

  /** How one item goes: whether a write succeeds, and the time of the answer. */
  datatype ItemLuck = ItemLuck(writes: bool, now: Time, reason: string)

  function AnswerOp(lease: OutboxLease, ok: bool, luck: ItemLuck, l: Limits): OutboxOp {
    if ok then AckOutbox(lease.item.id, lease.owner, luck.now)
    else if l.maxAttempts > 0 && lease.attempt >= l.maxAttempts then
      DeadLetterOutbox(lease.item.id, lease.owner, luck.reason, luck.now)
    else RetryOutbox(lease.item.id, lease.owner, luck.now + Delay(lease.attempt, l.backoffs.base, l.backoffs.maximum))
  }

  /** The store and the sink. */
  datatype Pair = Pair(sys: System, sink: Sink)

  /** Publishes a leased item, then acknowledges, dead-letters or reschedules it. */
  function Deliver(p: Pair, lease: OutboxLease, luck: ItemLuck, l: Limits): Pair {
    var (published, ok) := Publish(p.sink, lease.item, luck.writes);
    Pair(Exec(p.sys, OutboxCall(AnswerOp(lease, ok, luck, l))), published)
  }

  function Delivering(leases: seq<OutboxLease>, luck: nat -> ItemLuck, l: Limits): (Pair, nat) -> Option<Pair> {
    (p: Pair, i: nat) => if i < |leases| then Some(Deliver(p, leases[i], luck(i), l)) else None
  }

  function DeliverAll(p: Pair, leases: seq<OutboxLease>, luck: nat -> ItemLuck, l: Limits): Pair {
    Fold(p, Delivering(leases, luck, l), |leases|).0
  }

  class OutboxProcessor {
    const store: JournalStore
    const publisher: FileOutboxPublisher
    const workerId: string
    const batchSize: int
    const leaseDuration: int
    const limits: Limits

    constructor (store: JournalStore, publisher: FileOutboxPublisher, workerId: string, batchSize: int,
                 leaseDuration: int, limits: Limits)
      ensures this.store == store && this.publisher == publisher && this.workerId == workerId && this.limits == limits
      ensures this.batchSize == (if batchSize > 0 then batchSize else 32)
      ensures this.leaseDuration == (if leaseDuration > 0 then leaseDuration else 30_000_000_000)
    {
      this.store, this.publisher, this.workerId, this.limits := store, publisher, workerId, limits;
      this.batchSize := if batchSize > 0 then batchSize else 32;
      this.leaseDuration := if leaseDuration > 0 then leaseDuration else 30_000_000_000;
    }

    ghost function Both(): Pair
      reads store, publisher
    {
      Pair(store.Now(), publisher.Value())
    }

    method DeliverLease(lease: OutboxLease, luck: ItemLuck)
      requires limits.backoffs.base > 0 && limits.backoffs.maximum > 0 && !publisher.closed
      modifies store, publisher
      ensures !publisher.closed && Both() == Deliver(old(Both()), lease, luck, limits)
    {
      var ok := publisher.PublishItem(lease.item, luck.writes);
      if !ok {
        if limits.maxAttempts > 0 && lease.attempt >= limits.maxAttempts {
          var _ := store.DeadLetterOutboxLease(lease.item.id, lease.owner, luck.reason, luck.now);
          return;
        }
        var delay := BoundedBackoff(lease.attempt, limits.backoffs.base, limits.backoffs.maximum);
        var _ := store.RetryOutboxLease(lease.item.id, lease.owner, luck.now + delay);
        return;
      }
      var _ := store.AckOutboxLease(lease.item.id, lease.owner, luck.now);
    }

    method DeliverNext(ghost start: Pair, leases: seq<OutboxLease>, luck: nat -> ItemLuck, i: nat)
      requires limits.backoffs.base > 0 && limits.backoffs.maximum > 0 && !publisher.closed
      requires i < |leases| && Fold(start, Delivering(leases, luck, limits), i) == (Both(), true)
      modifies store, publisher
      ensures !publisher.closed && Fold(start, Delivering(leases, luck, limits), i + 1) == (Both(), true)
    {
      DeliverLease(leases[i], luck(i));
    }

    method DeliverLeases(leases: seq<OutboxLease>, luck: nat -> ItemLuck)
      requires limits.backoffs.base > 0 && limits.backoffs.maximum > 0 && !publisher.closed
      modifies store, publisher
      ensures !publisher.closed && Both() == DeliverAll(old(Both()), leases, luck, limits)
    {
      ghost var start := Both();
      var i := 0;
      while i < |leases|
        invariant 0 <= i <= |leases| && !publisher.closed
        invariant Fold(start, Delivering(leases, luck, limits), i) == (Both(), true)
      {
        DeliverNext(start, leases, luck, i);
        i := i + 1;
      }
    }

    /** Claims a batch and delivers every lease of it; nothing is claimed while the gate is shut. */
    method RunOnce(open: bool, now: Time, luck: nat -> ItemLuck)
      returns (ok: bool, ghost keys: seq<string>, ghost leases: seq<OutboxLease>)
      requires limits.backoffs.base > 0 && limits.backoffs.maximum > 0 && !publisher.closed
      requires batchSize > 0 && leaseDuration > 0
      modifies store, publisher
      ensures ok <==> workerId != "" && open
      ensures !ok ==> Both() == old(Both())
      ensures ok ==>
                Selection(keys, old(OutboxCandidates(store.outbox, now)), old(CreationRank(store.outbox.items)),
                          batchSize)
      ensures ok ==> Leased(keys, old(Claimant(workerId, now, leaseDuration).OutboxLeases(store.outbox)), leases)
      ensures ok ==>
                Both() == DeliverAll(old(Pair(Run(store.Now(), Claimant(workerId, now, leaseDuration).Outboxes(keys)),
                                              publisher.Value())),
                                     leases, luck, limits)
    {
      keys, leases := [], [];
      if workerId == "" || !open {
        return false, keys, leases;
      }
      var claimedKeys, claimed;
      ok, claimedKeys, claimed := store.ClaimOutboxItems(workerId, batchSize, now, leaseDuration);
      keys, leases := claimedKeys, claimed;
      DeliverLeases(claimed, luck);
    }
  }

  // A round is a legal run of the world

  /** The worker holds this lease of a stored item. */
  ghost predicate Holds(w: World, lease: OutboxLease) {
    var h := Hand(lease.owner, lease.item.id);
    lease.item.id in w.sys.mem.outbox.items && w.sys.mem.outbox.items[lease.item.id] == lease.item &&
    h in w.held && w.held[h] == lease.attempt
  }

  lemma AnswerKeepsItems(sys: System, lease: OutboxLease, ok: bool, luck: ItemLuck, l: Limits)
    ensures Exec(sys, OutboxCall(AnswerOp(lease, ok, luck, l))).mem.outbox.items == sys.mem.outbox.items
  {
    OutboxAfterExec(sys, OutboxCall(AnswerOp(lease, ok, luck, l)));
  }

  /** Delivering a held lease is legal: publish, then acknowledge, dead-letter or retry. */
  lemma DeliveryIsLegal(start: World, w: World, lease: OutboxLease, luck: ItemLuck, l: Limits) returns (v: World)
    requires Reaches(start, w, Steps(l.maxAttempts)) && Holds(w, lease)
    ensures Reaches(start, v, Steps(l.maxAttempts)) &&
            Pair(v.sys, v.sink) == Deliver(Pair(w.sys, w.sink), lease, luck, l)
    ensures v.held == w.held && v.sys.mem.outbox.items == w.sys.mem.outbox.items
  {
    var h := Hand(lease.owner, lease.item.id);
    var u := Next(w, TryPublish(h, luck.writes));
    StepReaches(start, w, TryPublish(h, luck.writes), u, Steps(l.maxAttempts));
    v := AnswerIsLegal(start, u, lease, h in u.published, luck, l);
  }

  lemma AnswerIsLegal(start: World, w: World, lease: OutboxLease, ok: bool, luck: ItemLuck, l: Limits)
    returns (v: World)
    requires Reaches(start, w, Steps(l.maxAttempts)) && Holds(w, lease)
    requires ok <==> Hand(lease.owner, lease.item.id) in w.published
    ensures Reaches(start, v, Steps(l.maxAttempts)) && v.sys == Exec(w.sys, OutboxCall(AnswerOp(lease, ok, luck, l)))
    ensures v.sink == w.sink && v.held == w.held && v.sys.mem.outbox.items == w.sys.mem.outbox.items
  {
    var h, op := Hand(lease.owner, lease.item.id), AnswerOp(lease, ok, luck, l);
    var step :=
      if ok then WorldStep.Ack(h, luck.now)
      else if op.DeadLetterOutbox? then WorldStep.DeadLetter(h, luck.reason, luck.now)
      else Client(OutboxCall(op));
    v := Next(w, step);
    StepReaches(start, w, step, v, Steps(l.maxAttempts));
    AnswerKeepsItems(w.sys, lease, ok, luck, l);
  }

  /** Every lease is one the worker holds. */
  ghost predicate HoldsAll(w: World, leases: seq<OutboxLease>) {
    forall i :: 0 <= i < |leases| ==> Holds(w, leases[i])
  }

  lemma {:induction false} BatchIsLegal(start: World, w: World, leases: seq<OutboxLease>, trail: seq<Pair>, n: nat,
                                        luck: nat -> ItemLuck, l: Limits) returns (v: World)
    requires Reaches(start, w, Steps(l.maxAttempts)) && HoldsAll(w, leases)
    requires Trail(trail, Pair(w.sys, w.sink), Delivering(leases, luck, l)) && n < |trail| <= |leases| + 1
    ensures Reaches(start, v, Steps(l.maxAttempts)) && Pair(v.sys, v.sink) == trail[n]
    ensures v.held == w.held && v.sys.mem.outbox.items == w.sys.mem.outbox.items
  {
    if n == 0 {
      v := w;
    } else {
      var before := BatchIsLegal(start, w, leases, trail, n - 1, luck, l);
      assert Delivering(leases, luck, l)(trail[n - 1], n - 1) == Some(trail[n]);
      assert Holds(w, leases[n - 1]);
      v := DeliveryIsLegal(start, before, leases[n - 1], luck(n - 1), l);
    }
  }

  lemma OneClaimIsLegal(start: World, w: World, id: string, c: Claimant, maxAttempts: nat) returns (v: World)
    requires Reaches(start, w, Steps(maxAttempts)) && c.Valid() && OutboxClaimable(w.sys.mem.outbox, id, c.now)
    ensures Reaches(start, v, Steps(maxAttempts)) && v.sink == w.sink
    ensures v.sys == Exec(w.sys, OutboxCall(ClaimOutbox(id, c.owner, c.now, c.duration)))
    ensures v.held == w.held[Hand(c.owner, id) := ClaimedAttempt(w.sys.mem.outbox, id)]
    ensures v.sys.mem.outbox.items == w.sys.mem.outbox.items
    ensures forall k :: k != id ==> StateOf(v.sys.mem.outbox, k) == StateOf(w.sys.mem.outbox, k)
  {
    var step := WorldStep.Claim(Hand(c.owner, id), c.now, c.duration);
    v := Next(w, step);
    StepReaches(start, w, step, v, Steps(maxAttempts));
    OutboxAfterExec(w.sys, OutboxCall(ClaimOutbox(id, c.owner, c.now, c.duration)));
  }

  /** The first n claims of a batch are in the world, and the other items' states are untouched. */
  ghost predicate ClaimedTo(w: World, v: World, keys: seq<string>, leases: seq<OutboxLease>, n: nat)
    requires |leases| == |keys|
  {
    v.sys.mem.outbox.items == w.sys.mem.outbox.items && v.sink == w.sink &&
    (forall i :: 0 <= i < n && i < |keys| ==> Holds(v, leases[i])) &&
    forall i :: n <= i < |keys| ==> StateOf(v.sys.mem.outbox, keys[i]) == StateOf(w.sys.mem.outbox, keys[i])
  }

  /** A batch of claimable items and the leases that claiming them returns. */
  ghost predicate Batch(o: OutboxStore, keys: seq<string>, leases: seq<OutboxLease>, c: Claimant) {
    c.Valid() && Distinct(keys) && |leases| == |keys| &&
    forall i :: 0 <= i < |keys| ==>
      OutboxClaimable(o, keys[i], c.now) && o.items[keys[i]].id == keys[i] &&
      c.OutboxLeaseFor(o, keys[i]) == Some(leases[i])
  }

  lemma NextClaimed(w: World, before: World, v: World, keys: seq<string>, leases: seq<OutboxLease>, c: Claimant, n: nat)
    requires Batch(w.sys.mem.outbox, keys, leases, c) && n < |keys| && ClaimedTo(w, before, keys, leases, n)
    requires v.sink == before.sink && v.sys.mem.outbox.items == before.sys.mem.outbox.items
    requires v.held == before.held[Hand(c.owner, keys[n]) := ClaimedAttempt(before.sys.mem.outbox, keys[n])]
    requires forall k :: k != keys[n] ==> StateOf(v.sys.mem.outbox, k) == StateOf(before.sys.mem.outbox, k)
    ensures ClaimedTo(w, v, keys, leases, n + 1)
  {
    forall i | 0 <= i < n + 1 ensures Holds(v, leases[i]) {
      assert c.OutboxLeaseFor(w.sys.mem.outbox, keys[i]) == Some(leases[i]);
      if i < n {
        assert Holds(before, leases[i]) && keys[i] != keys[n];
      } else {
        assert StateOf(before.sys.mem.outbox, keys[n]) == StateOf(w.sys.mem.outbox, keys[n]);
      }
    }
  }

  lemma {:induction false} ClaimsAreLegal(w: World, keys: seq<string>, leases: seq<OutboxLease>, c: Claimant,
                                          trail: seq<System>, n: nat, maxAttempts: nat) returns (v: World)
    requires Batch(w.sys.mem.outbox, keys, leases, c) && Passes(w.sys, c.Outboxes(keys), trail) && n <= |keys|
    ensures Reaches(w, v, Steps(maxAttempts)) && v.sys == trail[n] && ClaimedTo(w, v, keys, leases, n)
  {
    if n == 0 {
      ReachesItself(w, Steps(maxAttempts));
      v := w;
    } else {
      var before := ClaimsAreLegal(w, keys, leases, c, trail, n - 1, maxAttempts);
      StillClaimable(w, before, keys, leases, c, n - 1);
      v := OneClaimIsLegal(w, before, keys[n - 1], c, maxAttempts);
      NextClaimed(w, before, v, keys, leases, c, n - 1);
    }
  }

  lemma StillClaimable(w: World, before: World, keys: seq<string>, leases: seq<OutboxLease>, c: Claimant, n: nat)
    requires Batch(w.sys.mem.outbox, keys, leases, c) && n < |keys| && ClaimedTo(w, before, keys, leases, n)
    ensures OutboxClaimable(before.sys.mem.outbox, keys[n], c.now)
  {
    assert StateOf(before.sys.mem.outbox, keys[n]) == StateOf(w.sys.mem.outbox, keys[n]);
  }

  lemma BatchTrail(p: Pair, leases: seq<OutboxLease>, luck: nat -> ItemLuck, l: Limits) returns (trail: seq<Pair>)
    ensures Trail(trail, p, Delivering(leases, luck, l)) && |trail| == |leases| + 1
    ensures trail[|leases|] == DeliverAll(p, leases, luck, l)
  {
    FoldNeverRefused(p, Delivering(leases, luck, l), |leases|);
    trail := FoldTrail(p, Delivering(leases, luck, l), |leases|);
  }

  /**
   A whole round of the worker, from the claims to the last answer, is a legal run of the world: so what RunOnce
   acknowledges is on disk once, and what it gives up had its attempts.
   */
  lemma RunOnceIsLegal(w: World, keys: seq<string>, leases: seq<OutboxLease>, c: Claimant, luck: nat -> ItemLuck,
                       l: Limits)
    returns (v: World)
    requires Batch(w.sys.mem.outbox, keys, leases, c)
    ensures Reaches(w, v, Steps(l.maxAttempts))
    ensures Pair(v.sys, v.sink) == DeliverAll(Pair(Run(w.sys, c.Outboxes(keys)), w.sink), leases, luck, l)
  {
    var claims := RunTrail(w.sys, c.Outboxes(keys));
    var claimed := ClaimsAreLegal(w, keys, leases, c, claims, |keys|, l.maxAttempts);
    var trail := BatchTrail(Pair(claimed.sys, claimed.sink), leases, luck, l);
    v := BatchIsLegal(w, claimed, leases, trail, |leases|, luck, l);
  }

  /** What RunOnce claims is such a batch. */
  lemma SelectionIsBatch(o: OutboxStore, keys: seq<string>, leases: seq<OutboxLease>, c: Claimant, limit: nat)
    requires c.Valid() && ItemsNamed(o) && Selection(keys, OutboxCandidates(o, c.now), CreationRank(o.items), limit)
    requires Leased(keys, c.OutboxLeases(o), leases)
    ensures Batch(o, keys, leases, c)
  {
    forall i, j | 0 <= i < j < |keys| ensures keys[i] != keys[j] {
      SortedIsDistinct(keys, CreationRank(o.items), i, j);
    }
    forall i | 0 <= i < |keys|
      ensures OutboxClaimable(o, keys[i], c.now) && c.OutboxLeaseFor(o, keys[i]) == Some(leases[i])
    {
      assert keys[i] in keys;
      assert c.OutboxLeases(o)(keys[i]) == Some(leases[i]);
    }
  }

  /**
   So every round that RunOnce makes in a reachable world, with any luck, leads to a reachable one, in which the key of
   every acknowledged item is on disk exactly once and every dead letter had its attempts.
   */
  lemma RunOnceDelivers(w: World, keys: seq<string>, leases: seq<OutboxLease>, c: Claimant, limit: nat,
                        luck: nat -> ItemLuck, l: Limits) returns (v: World)
    requires Reaches(START, w, Steps(l.maxAttempts)) && c.Valid()
    requires var o := w.sys.mem.outbox;
             Selection(keys, OutboxCandidates(o, c.now), CreationRank(o.items), limit) &&
             Leased(keys, c.OutboxLeases(o), leases)
    ensures Reaches(START, v, Steps(l.maxAttempts))
    ensures Pair(v.sys, v.sink) == DeliverAll(Pair(Run(w.sys, c.Outboxes(keys)), w.sink), leases, luck, l)
    ensures var o := v.sys.mem.outbox;
            forall id ::
              (StateOf(o, id).acked ==> id in o.items && OnceOn(v.sink.file, SinkKey(o.items[id]))) &&
              (StateOf(o, id).deadLettered ==> 0 < l.maxAttempts <= StateOf(o, id).lease.attempt)
  {
    OutboxDelivery.ReachableIsGood(w, l.maxAttempts);
    SelectionIsBatch(w.sys.mem.outbox, keys, leases, c, limit);
    v := RunOnceIsLegal(w, keys, leases, c, luck, l);
    ReachesTransitively(START, w, v, Steps(l.maxAttempts));
    forall id
      ensures var o := v.sys.mem.outbox;
              (StateOf(o, id).acked ==> id in o.items && OnceOn(v.sink.file, SinkKey(o.items[id]))) &&
              (StateOf(o, id).deadLettered ==> 0 < l.maxAttempts <= StateOf(o, id).lease.attempt)
    {
      AckedItemsAreOnDiskOnce(v, l.maxAttempts, id);
    }
  }
}
