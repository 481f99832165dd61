/**
 What becomes of every object of a batch (internal/artifact/lifecycle.go, RunOnce): its blob is gone and it is DELETED
 exactly if the blob could be deleted, and otherwise it waits for another try, and for how long.
 */
module LifecycleRound {
  import opened Wrappers
  import opened Model
  import opened Journal
  import opened JournalOps
  import opened QuotaConservation
  import opened JournalStoreImpl
  import opened BatchClaims
  import opened ArtifactIngest
  import opened ArtifactLifecycle
  import opened Folds
  import opened Ordering

  function LeaseAt(a: ArtifactStore, key: Key): Lease {
    Get(a.leases, key, NO_LEASE)
  }

  /** The worker holds the lease of an object that is being deleted. */
  ghost predicate Has(a: ArtifactStore, lease: DeletionLease) {
    var key := lease.obj.ResourceKey();
    lease.owner != "" && LeaseAt(a, key).owner == lease.owner && lease.obj.status == Deleting &&
    key in a.objects && a.objects[key] == lease.obj
  }

  // The claims

  ghost predicate HeldTo(was: ArtifactStore, a: ArtifactStore, keys: seq<Key>, leases: seq<DeletionLease>, n: nat)
    requires |leases| == |keys|
  {
    QuotaInvariant(a) && (forall i :: 0 <= i < n && i < |keys| ==> Has(a, leases[i])) &&
    forall i :: n <= i < |keys| ==> SameObject(was, a, keys[i])
  }

  lemma DoConserves(a: ArtifactStore, op: ArtifactOp)
    requires QuotaInvariant(a)
    ensures QuotaInvariant(Do(a, op))
  {
    if DecideArtifact(a, op).Commit? {
      ArtifactOpConserves(a, op);
    }
  }

  lemma ClaimMade(a: ArtifactStore, key: Key, c: Claimant)
    requires KeyedObjects(a) && c.Valid() && DeletionClaimable(a, key, c.now)
    ensures var after := Do(a, ClaimOp(key, c));
            LeaseAt(after, key).owner == c.owner && key in after.objects &&
            after.objects[key] == a.objects[key].(status := Deleting, updatedAt := c.now)
    ensures forall k :: k != key ==> SameObject(a, Do(a, ClaimOp(key, c)), k)
  {
  }

  lemma ClaimHolds(was: ArtifactStore, a: ArtifactStore, keys: seq<Key>, leases: seq<DeletionLease>, c: Claimant,
                   n: nat)
    requires LeasesOf(was, keys, leases, c) && n < |keys| && HeldTo(was, a, keys, leases, n)
    ensures HeldTo(was, Do(a, ClaimOp(keys[n], c)), keys, leases, n + 1)
  {
    assert c.DeletionLeaseFor(was, keys[n]) == Some(leases[n]) && SameObject(was, a, keys[n]);
    DoConserves(a, ClaimOp(keys[n], c));
    ClaimMade(a, keys[n], c);
    var after := Do(a, ClaimOp(keys[n], c));
    forall i | 0 <= i < n ensures Has(after, leases[i]) {
      assert c.DeletionLeaseFor(was, keys[i]) == Some(leases[i]) && keys[i] != keys[n] && Has(a, leases[i]);
      assert SameObject(a, after, keys[i]);
    }
    forall i | n + 1 <= i < |keys| ensures SameObject(was, after, keys[i]) {
      assert keys[i] != keys[n] && SameObject(was, a, keys[i]) && SameObject(a, after, keys[i]);
    }
  }

  lemma NoneHeld(was: ArtifactStore, keys: seq<Key>, leases: seq<DeletionLease>, c: Claimant)
    requires QuotaInvariant(was) && |leases| == |keys|
    ensures HeldTo(was, ClaimTo(was, keys, c, 0), keys, leases, 0)
  {
  }

  lemma NextHeld(was: ArtifactStore, a: ArtifactStore, b: ArtifactStore, keys: seq<Key>, leases: seq<DeletionLease>,
                 c: Claimant, n: nat)
    requires LeasesOf(was, keys, leases, c) && n < |keys| && HeldTo(was, a, keys, leases, n)
    requires b == Do(a, ClaimOp(keys[n], c))
    ensures HeldTo(was, b, keys, leases, n + 1)
  {
    ClaimHolds(was, a, keys, leases, c, n);
  }

  lemma {:induction false} ClaimsHold(was: ArtifactStore, keys: seq<Key>, leases: seq<DeletionLease>, c: Claimant,
                                      n: nat)
    requires QuotaInvariant(was) && LeasesOf(was, keys, leases, c) && n <= |keys|
    ensures HeldTo(was, ClaimTo(was, keys, c, n), keys, leases, n)
  {
    if n == 0 {
      NoneHeld(was, keys, leases, c);
    } else {
      ClaimsHold(was, keys, leases, c, n - 1);
      StillClaimable(was, keys, leases, c, n - 1);
      NextHeld(was, ClaimTo(was, keys, c, n - 1), ClaimTo(was, keys, c, n), keys, leases, c, n - 1);
    }
  }

  // One object

  /** The worker waits a minute more at each attempt, but no longer than ten. */
  function RetryTime(lease: DeletionLease, now: Time): Time {
    now + (if lease.attempt >= 10 then 600_000_000_000 else lease.attempt * 60_000_000_000)
  }

  /** What becomes of an object, and that nothing else becomes of it until the stores are as they are now. */
  ghost predicate Settled(s: Stores, lease: DeletionLease, ok: bool, now: Time, later: Time) {
    var key := lease.obj.ResourceKey();
    key in s.artifacts.objects && LeaseAt(s.artifacts, key).owner == "" &&
    if ok then
      s.artifacts.objects[key] == lease.obj.(status := Deleted, updatedAt := later, deletedAt := Some(later)) &&
      lease.obj.storageKey !in s.blobs
    else
      s.artifacts.objects[key] == lease.obj &&
      forall t :: DeletionClaimable(s.artifacts, key, t) <==> t >= lease.obj.expiresAt && t >= RetryTime(lease, now)
  }

  lemma ObjectSettled(s: Stores, lease: DeletionLease, ok: bool, now: Time, later: Time)
    requires QuotaInvariant(s.artifacts) && Has(s.artifacts, lease)
    ensures var after := Settle(s, lease, ok, now, later);
            QuotaInvariant(after.artifacts) && Settled(after, lease, ok, now, later) &&
            forall k :: k != lease.obj.ResourceKey() ==> SameObject(s.artifacts, after.artifacts, k)
  {
    ChargedIsCovered(s.artifacts, lease.obj.ResourceKey());
    DoConserves(s.artifacts, SettleOp(lease, ok, now, later));
  }

  // The batch

  ghost predicate Round(trail: seq<Stores>, leases: seq<DeletionLease>, ok: nat -> bool, now: Time, later: Time) {
    |trail| == |leases| + 1 &&
    forall n :: 0 <= n < |leases| ==> trail[n + 1] == Settle(trail[n], leases[n], ok(n), now, later)
  }

  ghost predicate SettledTo(trail: seq<Stores>, leases: seq<DeletionLease>, n: nat, ok: nat -> bool, now: Time,
                            later: Time)
    requires n < |trail| == |leases| + 1
  {
    QuotaInvariant(trail[n].artifacts) &&
    (forall i :: 0 <= i < n ==> Settled(trail[n], leases[i], ok(i), now, later)) &&
    (forall i :: n <= i < |leases| ==> Has(trail[n].artifacts, leases[i])) && BlobsLeft(trail, leases, n, ok)
  }

  /** The blobs are those there were, without the ones that were deleted. */
  ghost predicate BlobsLeft(trail: seq<Stores>, leases: seq<DeletionLease>, n: nat, ok: nat -> bool)
    requires n < |trail| == |leases| + 1
  {
    (forall b :: b in trail[n].blobs ==> b in trail[0].blobs && trail[n].blobs[b] == trail[0].blobs[b]) &&
    forall b :: b in trail[0].blobs && b !in trail[n].blobs ==>
      exists i :: 0 <= i < n && ok(i) && leases[i].obj.storageKey == b
  }

  ghost predicate DistinctObjects(leases: seq<DeletionLease>) {
    forall i, j :: 0 <= i < j < |leases| ==> leases[i].obj.ResourceKey() != leases[j].obj.ResourceKey()
  }

  lemma StaysSettled(s: Stores, next: Stores, lease: DeletionLease, ok: bool, now: Time, later: Time)
    requires Settled(s, lease, ok, now, later) && SameObject(s.artifacts, next.artifacts, lease.obj.ResourceKey())
    requires next.blobs.Keys <= s.blobs.Keys
    ensures Settled(next, lease, ok, now, later)
  {
    var key := lease.obj.ResourceKey();
    forall t ensures DeletionClaimable(next.artifacts, key, t) <==> DeletionClaimable(s.artifacts, key, t) {
    }
  }

  lemma StaysHeld(a: ArtifactStore, next: ArtifactStore, lease: DeletionLease)
    requires Has(a, lease) && SameObject(a, next, lease.obj.ResourceKey())
    ensures Has(next, lease)
  {
  }

  lemma NextIsSettled(trail: seq<Stores>, leases: seq<DeletionLease>, n: nat, ok: nat -> bool, now: Time, later: Time)
    requires n < |leases| && Round(trail, leases, ok, now, later) && DistinctObjects(leases)
    requires SettledTo(trail, leases, n, ok, now, later)
    ensures SettledTo(trail, leases, n + 1, ok, now, later)
  {
    ObjectSettled(trail[n], leases[n], ok(n), now, later);
    forall i | 0 <= i < n ensures Settled(trail[n + 1], leases[i], ok(i), now, later) {
      assert leases[i].obj.ResourceKey() != leases[n].obj.ResourceKey();
      StaysSettled(trail[n], trail[n + 1], leases[i], ok(i), now, later);
    }
    forall i | n < i < |leases| ensures Has(trail[n + 1].artifacts, leases[i]) {
      StaysHeld(trail[n].artifacts, trail[n + 1].artifacts, leases[i]);
    }
    NextBlobsLeft(trail, leases, n, ok, now, later);
  }

  lemma NextBlobsLeft(trail: seq<Stores>, leases: seq<DeletionLease>, n: nat, ok: nat -> bool, now: Time, later: Time)
    requires n < |leases| && Round(trail, leases, ok, now, later) && BlobsLeft(trail, leases, n, ok)
    ensures BlobsLeft(trail, leases, n + 1, ok)
  {
    assert trail[n + 1] == Settle(trail[n], leases[n], ok(n), now, later);
    forall b | b in trail[0].blobs && b !in trail[n + 1].blobs
      ensures exists i :: 0 <= i < n + 1 && ok(i) && leases[i].obj.storageKey == b
    {
      if b in trail[n].blobs {
        assert ok(n) && leases[n].obj.storageKey == b;
      }
    }
  }

  lemma {:induction false} AllSettled(trail: seq<Stores>, leases: seq<DeletionLease>, n: nat, ok: nat -> bool,
                                      now: Time, later: Time)
    requires n <= |leases| && Round(trail, leases, ok, now, later) && DistinctObjects(leases)
    requires QuotaInvariant(trail[0].artifacts)
    requires forall i :: 0 <= i < |leases| ==> Has(trail[0].artifacts, leases[i])
    ensures SettledTo(trail, leases, n, ok, now, later)
  {
    if n > 0 {
      AllSettled(trail, leases, n - 1, ok, now, later);
      NextIsSettled(trail, leases, n - 1, ok, now, later);
    }
  }

  lemma RoundTrail(start: Stores, leases: seq<DeletionLease>, ok: nat -> bool, now: Time, later: Time)
    returns (trail: seq<Stores>)
    ensures Round(trail, leases, ok, now, later) && trail[0] == start
    ensures trail[|leases|] == SettleAll(start, leases, ok, now, later)
  {
    var f := Settling(leases, ok, now, later);
    FoldNeverRefused(start, f, |leases|);
    trail := FoldTrail(start, f, |leases|);
    forall n | 0 <= n < |leases| ensures trail[n + 1] == Settle(trail[n], leases[n], ok(n), now, later) {
      assert f(trail[n], n) == Some(trail[n + 1]);
    }
  }

  lemma LeasesAreDistinct(a: ArtifactStore, keys: seq<Key>, leases: seq<DeletionLease>, c: Claimant)
    requires LeasesOf(a, keys, leases, c)
    ensures DistinctObjects(leases)
  {
    forall i | 0 <= i < |keys| ensures leases[i].obj.ResourceKey() == keys[i] {
      assert c.DeletionLeaseFor(a, keys[i]) == Some(leases[i]);
    }
  }

  /**
   Every object that RunOnce claims is settled: where its blob could be deleted, the blob is gone and the object is
   DELETED; the others are still DELETING, free, and can be claimed exactly from their retry time on. No other blob
   is touched.
   */
  lemma EveryObjectIsSettled(a: ArtifactStore, blobs: map<string, int>, keys: seq<Key>, leases: seq<DeletionLease>,
                             c: Claimant, limit: nat, ok: nat -> bool, later: Time)
    requires QuotaInvariant(a) && c.Valid() && Leased(keys, c.DeletionLeases(a), leases)
    requires Selection(keys, DeletionCandidates(a, c.now), KeyRank, limit)
    ensures var after := SettleAll(Stores(ClaimTo(a, keys, c, |keys|), blobs), leases, ok, c.now, later);
            (forall i :: 0 <= i < |leases| ==> Settled(after, leases[i], ok(i), c.now, later)) &&
            (forall b :: b in after.blobs ==> b in blobs && after.blobs[b] == blobs[b]) &&
            forall b :: b in blobs && b !in after.blobs ==>
              exists i :: 0 <= i < |leases| && ok(i) && leases[i].obj.storageKey == b
  {
    SelectedAreLeases(a, keys, leases, c, limit);
    LeasesAreDistinct(a, keys, leases, c);
    ClaimsHold(a, keys, leases, c, |keys|);
    var start := Stores(ClaimTo(a, keys, c, |keys|), blobs);
    var trail := RoundTrail(start, leases, ok, c.now, later);
    AllSettled(trail, leases, |leases|, ok, c.now, later);
  }
}
