/**
 The lifecycle worker (internal/artifact/lifecycle.go): claims expired objects, deletes their blobs and
 completes or reschedules the deletion.
 */
module ArtifactLifecycle {
  import opened Wrappers
  import opened Model
  import opened Journal
  import opened JournalOps
  import opened JournalRefinement
  import opened ArtifactIngest
  import opened ArtifactServiceImpl
  import opened JournalStoreImpl
  import opened BatchClaims
  import opened Folds
  import opened Ordering

  function ClaimOp(key: Key, c: Claimant): ArtifactOp {
    ClaimExpired(key, c.owner, c.now, c.duration)
  }

  function Claiming(keys: seq<Key>, c: Claimant): (ArtifactStore, nat) -> Option<ArtifactStore> {
    (s: ArtifactStore, i: nat) => if i < |keys| then Some(Do(s, ClaimOp(keys[i], c))) else None
  }

  /** The artifacts after the first n claims of a batch. */
  function ClaimTo(s: ArtifactStore, keys: seq<Key>, c: Claimant, n: nat): ArtifactStore {
    Fold(s, Claiming(keys, c), n).0
  }

  lemma OneClaimOnArtifacts(sys: System, key: Key, c: Claimant)
    ensures Exec(sys, ArtifactCall(ClaimOp(key, c))).mem.artifacts == Do(sys.mem.artifacts, ClaimOp(key, c))
  {
    ArtifactsAfterExec(sys, ArtifactCall(ClaimOp(key, c)));
  }

  /** A batch claim on the whole store is the claims one by one on its artifacts. */
  lemma {:induction false} BatchClaimsArtifacts(sys: System, keys: seq<Key>, c: Claimant, trail: seq<System>, n: nat)
    requires Passes(sys, c.Deletions(keys), trail) && n <= |keys|
    ensures Fold(sys.mem.artifacts, Claiming(keys, c), n) == (trail[n].mem.artifacts, true)
  {
    if n > 0 {
      BatchClaimsArtifacts(sys, keys, c, trail, n - 1);
      OneClaimOnArtifacts(trail[n - 1], keys[n - 1], c);
    }
  }

  // Other objects are not touched

  lemma ClaimLeavesOthers(s: ArtifactStore, key: Key, other: Key, c: Claimant)
    requires KeyedObjects(s) && key != other
    ensures KeyedObjects(Do(s, ClaimOp(key, c))) && SameObject(s, Do(s, ClaimOp(key, c)), other)
  {
  }

  lemma {:induction false} ClaimsLeaveOthers(s: ArtifactStore, keys: seq<Key>, c: Claimant, n: nat, other: Key)
    requires KeyedObjects(s) && n <= |keys| && forall i :: 0 <= i < n ==> keys[i] != other
    ensures Fold(s, Claiming(keys, c), n).1
    ensures KeyedObjects(ClaimTo(s, keys, c, n)) && SameObject(s, ClaimTo(s, keys, c, n), other)
  {
    if n > 0 {
      ClaimsLeaveOthers(s, keys, c, n - 1, other);
      ClaimLeavesOthers(ClaimTo(s, keys, c, n - 1), keys[n - 1], other, c);
    }
  }

  // What the worker does with its leases

  /** What is asked of the store for one lease: `ok` tells whether the blob could be deleted. */
  function SettleOp(lease: DeletionLease, ok: bool, now: Time, later: Time): ArtifactOp {
    if ok then CompleteDeletion(lease.obj.ResourceKey(), lease.owner, later)
    else RetryDeletion(lease.obj.ResourceKey(), lease.owner,
                       now + (if lease.attempt < 10 then lease.attempt else 10) * 60_000_000_000)
  }

  datatype Stores = Stores(artifacts: ArtifactStore, blobs: map<string, int>)

  function Settle(s: Stores, lease: DeletionLease, ok: bool, now: Time, later: Time): Stores {
    Stores(Do(s.artifacts, SettleOp(lease, ok, now, later)), if ok then s.blobs - {lease.obj.storageKey} else s.blobs)
  }

  function Settling(leases: seq<DeletionLease>, ok: nat -> bool, now: Time, later: Time)
    : (Stores, nat) -> Option<Stores>
  {
    (s: Stores, i: nat) => if i < |leases| then Some(Settle(s, leases[i], ok(i), now, later)) else None
  }

  function SettleAll(s: Stores, leases: seq<DeletionLease>, ok: nat -> bool, now: Time, later: Time): Stores {
    Fold(s, Settling(leases, ok, now, later), |leases|).0
  }

  // The world's deletions

  function DeletionOf(lease: DeletionLease): Deletion {
    Deletion(lease.obj.ResourceKey(), lease.obj.storageKey, false)
  }

  /** The deletions for the leases from number n on go under the names first + n, first + n + 1, .... */
  ghost predicate Underway(deletions: map<nat, Deletion>, leases: seq<DeletionLease>, first: nat, n: nat) {
    forall j :: first + n <= j < first + |leases| ==> j in deletions && deletions[j] == DeletionOf(leases[j - first])
  }

  ghost predicate Unused(deletions: map<nat, Deletion>, first: nat) {
    forall j :: j in deletions ==> j < first
  }

  lemma UnderwayOneMore(deletions: map<nat, Deletion>, leases: seq<DeletionLease>, first: nat, n: nat)
    requires n < |leases| && Underway(deletions, leases[..n], first, 0) && Unused(deletions, first + n)
    ensures var more := deletions[first + n := DeletionOf(leases[n])];
            Underway(more, leases[..n + 1], first, 0) && Unused(more, first + n + 1)
  {
  }

  lemma UnderwayOneLess(deletions: map<nat, Deletion>, leases: seq<DeletionLease>, first: nat, n: nat)
    requires n < |leases| && Underway(deletions, leases, first, n)
    ensures first + n in deletions && deletions[first + n] == DeletionOf(leases[n])
    ensures Underway(deletions - {first + n}, leases, first, n + 1)
  {
  }

  /** The leases are what claiming the keys in this store returns. */
  ghost predicate LeasesOf(s: ArtifactStore, keys: seq<Key>, leases: seq<DeletionLease>, c: Claimant) {
    KeyedObjects(s) && c.Valid() && Distinct(keys) && |leases| == |keys| &&
    forall m :: 0 <= m < |keys| ==>
      DeletionClaimable(s, keys[m], c.now) && c.DeletionLeaseFor(s, keys[m]) == Some(leases[m])
  }

  lemma StillClaimable(was: ArtifactStore, keys: seq<Key>, leases: seq<DeletionLease>, c: Claimant, n: nat)
    requires LeasesOf(was, keys, leases, c) && n < |keys|
    ensures var s := ClaimTo(was, keys, c, n);
            DeletionClaimable(s, keys[n], c.now) && s.objects[keys[n]].ResourceKey() == keys[n] &&
            leases[n].obj == s.objects[keys[n]].(status := Deleting, updatedAt := c.now)
    ensures ClaimTo(was, keys, c, n + 1) == Do(ClaimTo(was, keys, c, n), ClaimOp(keys[n], c))
  {
    ClaimsLeaveOthers(was, keys, c, n, keys[n]);
    assert c.DeletionLeaseFor(was, keys[n]) == Some(leases[n]);
  }

  class Lifecycle {
    const service: ArtifactService
    const workerId: string
    const batchSize: int
    const leaseDuration: int

    constructor (service: ArtifactService, workerId: string, batchSize: int, leaseDuration: int)
      ensures this.service == service && this.workerId == workerId
      ensures this.batchSize == (if batchSize > 0 then batchSize else 32)
      ensures this.leaseDuration == (if leaseDuration > 0 then leaseDuration else 60_000_000_000)
    {
      this.service, this.workerId := service, workerId;
      this.batchSize := if batchSize > 0 then batchSize else 32;
      this.leaseDuration := if leaseDuration > 0 then leaseDuration else 60_000_000_000;
    }

    ghost function Both(): Stores
      reads service.metadata, service.objects
    {
      Stores(service.metadata.artifacts, service.objects.blobs)
    }

    /** The service's world was reached by legal steps. */
    ghost predicate Reachable()
      reads service
    {
      Reached(service.world, service.discipline, service.tenantOf)
    }

    /** Adds a claim to the world, where the store has already made it. */
    ghost method TakeClaim(j: nat, key: Key, lease: DeletionLease, c: Claimant)
      requires Reachable() && j !in service.world.deletions && c.Valid()
      requires DeletionClaimable(service.world.store, key, c.now)
      requires lease.obj == service.world.store.objects[key].(status := Deleting, updatedAt := c.now)
      requires service.world.store.objects[key].ResourceKey() == key
      modifies service`world
      ensures Reachable()
      ensures service.world ==
              old(service.world).(store := Do(old(service.world).store, ClaimOp(key, c)),
                                  deletions := old(service.world).deletions[j := DeletionOf(lease)])
    {
      service.Take(Claim(j, key, c.owner, c.now, c.duration));
    }

    /** The first n claims are in the world. */
    ghost predicate Taken(was: World, keys: seq<Key>, leases: seq<DeletionLease>, first: nat, c: Claimant, n: nat)
      requires n <= |keys| == |leases|
      reads service
    {
      Reachable() && service.world.store == ClaimTo(was.store, keys, c, n) &&
      service.world.blobs == was.blobs && Unused(service.world.deletions, first + n) &&
      Underway(service.world.deletions, leases[..n], first, 0)
    }

    ghost method TakeNext(was: World, keys: seq<Key>, leases: seq<DeletionLease>, first: nat, c: Claimant, n: nat)
      requires LeasesOf(was.store, keys, leases, c) && n < |keys| && Taken(was, keys, leases, first, c, n)
      modifies service`world
      ensures Taken(was, keys, leases, first, c, n + 1)
    {
      StillClaimable(was.store, keys, leases, c, n);
      UnderwayOneMore(service.world.deletions, leases, first, n);
      TakeClaim(first + n, keys[n], leases[n], c);
    }

    /** Adds the claims to the world, where the store has already made them. */
    ghost method TakeClaims(keys: seq<Key>, leases: seq<DeletionLease>, first: nat, c: Claimant)
      requires Reachable() && LeasesOf(service.world.store, keys, leases, c) && Unused(service.world.deletions, first)
      modifies service`world
      ensures Reachable() && service.world.store == ClaimTo(old(service.world).store, keys, c, |keys|)
      ensures service.world.blobs == old(service.world).blobs && Underway(service.world.deletions, leases, first, 0)
    {
      ghost var was := service.world;
      var n := 0;
      while n < |keys|
        invariant 0 <= n <= |keys| && Taken(was, keys, leases, first, c, n)
      {
        TakeNext(was, keys, leases, first, c, n);
        n := n + 1;
      }
      assert leases[..n] == leases;
    }

    /** Deletes one claimed object's blob and completes its deletion. */
    method DeleteObject(lease: DeletionLease, later: Time, ghost j: nat)
      requires service.Valid() && j in service.world.deletions && service.world.deletions[j] == DeletionOf(lease)
      modifies service, service.metadata, service.objects
      ensures service.Valid() && service.world.deletions == old(service.world).deletions - {j}
      ensures service.objects.blobs == old(service.objects.blobs) - {lease.obj.storageKey}
      ensures service.metadata.artifacts ==
              Do(old(service.metadata.artifacts), CompleteDeletion(lease.obj.ResourceKey(), lease.owner, later))
    {
      ghost var was := service.world.deletions;
      ReachedDeletion(service.world, service.discipline, service.tenantOf, j);
      service.objects.Delete(lease.obj.storageKey);
      service.Take(DeleteBlob(j));
      ArtifactsAfterExec(service.metadata.Now(),
                         ArtifactCall(CompleteDeletion(lease.obj.ResourceKey(), lease.owner, later)));
      var _ := service.metadata.CompleteArtifactDeletion(lease.obj.ResourceKey(), lease.owner, later);
      service.Take(Complete(j, lease.owner, later));
      assert was[j := DeletionOf(lease).(blobDeleted := true)] - {j} == was - {j};
    }

    /** Reschedules the deletion of one claimed object. */
    method RetryObject(lease: DeletionLease, at: Time, ghost j: nat)
      requires service.Valid() && j in service.world.deletions && service.world.deletions[j] == DeletionOf(lease)
      modifies service, service.metadata
      ensures service.Valid() && service.world.deletions == old(service.world).deletions - {j}
      ensures service.objects.blobs == old(service.objects.blobs)
      ensures service.metadata.artifacts ==
              Do(old(service.metadata.artifacts), RetryDeletion(lease.obj.ResourceKey(), lease.owner, at))
    {
      ghost var op := RetryDeletion(lease.obj.ResourceKey(), lease.owner, at);
      ArtifactsAfterExec(service.metadata.Now(), ArtifactCall(op));
      var _ := service.metadata.RetryArtifactDeletion(lease.obj.ResourceKey(), lease.owner, at);
      service.Take(RenewOrRetry(op));
      service.Take(StopDeletion(j));
    }

    method SettleLease(lease: DeletionLease, ok: bool, now: Time, later: Time, ghost j: nat)
      requires service.Valid() && j in service.world.deletions && service.world.deletions[j] == DeletionOf(lease)
      modifies service, service.metadata, service.objects
      ensures service.Valid() && service.world.deletions == old(service.world).deletions - {j}
      ensures Both() == Settle(old(Both()), lease, ok, now, later)
    {
      if !ok {
        var delay := (if lease.attempt < 10 then lease.attempt else 10) * 60_000_000_000;
        RetryObject(lease, now + delay, j);
      } else {
        DeleteObject(lease, later, j);
      }
    }

    /** The first n leases are settled. */
    ghost predicate SettledTo(was: Stores, leases: seq<DeletionLease>, ok: nat -> bool, now: Time, later: Time,
                              first: nat, n: nat)
      reads service, service.metadata, service.objects
    {
      service.Valid() && Underway(service.world.deletions, leases, first, n) &&
      Fold(was, Settling(leases, ok, now, later), n) == (Both(), true)
    }

    method SettleNext(ghost was: Stores, leases: seq<DeletionLease>, ok: nat -> bool, now: Time, later: Time,
                      ghost first: nat, n: nat)
      requires n < |leases| && SettledTo(was, leases, ok, now, later, first, n)
      modifies service, service.metadata, service.objects
      ensures SettledTo(was, leases, ok, now, later, first, n + 1)
    {
      UnderwayOneLess(service.world.deletions, leases, first, n);
      SettleLease(leases[n], ok(n), now, later, first + n);
    }

    /** Works through a batch of leases in order. */
    method SettleBatch(leases: seq<DeletionLease>, ok: nat -> bool, now: Time, later: Time, ghost first: nat)
      requires service.Valid() && Underway(service.world.deletions, leases, first, 0)
      modifies service, service.metadata, service.objects
      ensures service.Valid() && Both() == SettleAll(old(Both()), leases, ok, now, later)
    {
      ghost var was := Both();
      var n := 0;
      while n < |leases|
        invariant 0 <= n <= |leases| && SettledTo(was, leases, ok, now, later, first, n)
      {
        SettleNext(was, leases, ok, now, later, first, n);
        n := n + 1;
      }
    }

    /**
     One round: claims a batch of expired objects, deletes the blobs that can be deleted, and completes or
     reschedules each. Nothing is claimed while the gate is shut.
     */
    method RunOnce(open: bool, now: Time, later: Time, ok: nat -> bool, ghost first: nat)
      returns (ran: bool, ghost keys: seq<Key>, ghost leases: seq<DeletionLease>)
      requires service.Valid() && batchSize > 0 && leaseDuration > 0 && Unused(service.world.deletions, first)
      modifies service, service.metadata, service.objects
      ensures service.Valid() && (ran <==> workerId != "" && open)
      ensures !ran ==> Both() == old(Both())
      ensures ran ==>
                Selection(keys, old(DeletionCandidates(service.metadata.artifacts, now)), KeyRank, batchSize) &&
                Leased(keys, old(Claimant(workerId, now, leaseDuration).DeletionLeases(service.metadata.artifacts)),
                       leases)
      ensures ran ==>
                Both() == SettleAll(old(Stores(ClaimTo(service.metadata.artifacts, keys,
                                                       Claimant(workerId, now, leaseDuration), |keys|),
                                               service.objects.blobs)),
                                    leases, ok, now, later)
    {
      keys, leases := [], [];
      if workerId == "" || !open {
        return false, keys, leases;
      }
      ghost var was, sys := service.metadata.artifacts, service.metadata.Now();
      ghost var c := Claimant(workerId, now, leaseDuration);
      forall k | k in was.objects ensures was.objects[k].ResourceKey() == k {
        ReachedObject(service.world, service.discipline, service.tenantOf, k);
      }
      var claimedKeys, claimed;
      ran, claimedKeys, claimed := service.metadata.ClaimExpiredArtifacts(workerId, batchSize, now, leaseDuration);
      keys, leases := claimedKeys, claimed;
      ClaimsMade(sys, keys, c);
      SelectedAreLeases(was, keys, leases, c, batchSize);
      TakeClaims(keys, leases, first, c);
      SettleBatch(claimed, ok, now, later, first);
    }
  }

  lemma ClaimsMade(sys: System, keys: seq<Key>, c: Claimant)
    ensures Run(sys, c.Deletions(keys)).mem.artifacts == ClaimTo(sys.mem.artifacts, keys, c, |keys|)
  {
    var trail := RunTrail(sys, c.Deletions(keys));
    BatchClaimsArtifacts(sys, keys, c, trail, |keys|);
  }

  lemma SelectedAreLeases(s: ArtifactStore, keys: seq<Key>, leases: seq<DeletionLease>, c: Claimant, limit: nat)
    requires KeyedObjects(s) && c.Valid() && Selection(keys, DeletionCandidates(s, c.now), KeyRank, limit)
    requires Leased(keys, c.DeletionLeases(s), leases)
    ensures LeasesOf(s, keys, leases, c)
  {
    forall m | 0 <= m < |keys|
      ensures DeletionClaimable(s, keys[m], c.now) && c.DeletionLeaseFor(s, keys[m]) == Some(leases[m])
    {
      assert keys[m] in keys;
      assert c.DeletionLeases(s)(keys[m]) == Some(leases[m]);
    }
    forall i, j | 0 <= i < j < |keys| ensures keys[i] != keys[j] {
      SortedIsDistinct(keys, KeyRank, i, j);
    }
  }
}
