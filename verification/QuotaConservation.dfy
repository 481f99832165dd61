/**
 Tenant artifact quotas: in every reachable state the usage counters are exactly the sum and
 the count of the tenant's charged objects (internal/core/store.go, artifact operations).
 */
module QuotaConservation {
  import opened Wrappers
  import opened Model
  import opened Journal
  import opened JournalOps
  import opened JournalRefinement
  import opened MapSum

  function ByteWeight(tenant: string): ArtifactObject -> int {
    (o: ArtifactObject) => if o.tenantId == tenant && o.status.Charged() then o.sizeBytes else 0
  }

  function CountWeight(tenant: string): ArtifactObject -> int {
    (o: ArtifactObject) => if o.tenantId == tenant && o.status.Charged() then 1 else 0
  }

  ghost predicate Filed(a: ArtifactStore) {
    (forall k :: k in a.objects ==> a.objects[k].ResourceKey() == k && a.objects[k].sizeBytes >= 0) &&
    (forall t :: t in a.usage ==> a.usage[t].tenantId == t)
  }

  ghost predicate Balanced(a: ArtifactStore, tenant: string) {
    UsageOf(a, tenant).bytes == Total(a.objects, ByteWeight(tenant)) &&
    UsageOf(a, tenant).objects == Total(a.objects, CountWeight(tenant))
  }

  ghost predicate QuotaInvariant(a: ArtifactStore) {
    Filed(a) && forall t :: Balanced(a, t)
  }

  /** What rewriting one object does to the charges of each tenant. */
  lemma ChargeAfterUpdate(a: ArtifactStore, o: ArtifactObject, tenant: string)
    ensures var k := o.ResourceKey();
            Total(a.objects[k := o], ByteWeight(tenant)) ==
              Total(a.objects, ByteWeight(tenant)) + ByteWeight(tenant)(o)
              - (if k in a.objects then ByteWeight(tenant)(a.objects[k]) else 0) &&
            Total(a.objects[k := o], CountWeight(tenant)) ==
              Total(a.objects, CountWeight(tenant)) + CountWeight(tenant)(o)
              - (if k in a.objects then CountWeight(tenant)(a.objects[k]) else 0)
  {
    TotalUpdate(a.objects, o.ResourceKey(), o, ByteWeight(tenant));
    TotalUpdate(a.objects, o.ResourceKey(), o, CountWeight(tenant));
  }

  /** A charged object is covered by its tenant's counters, so releasing it never underflows. */
  lemma ChargedIsCovered(a: ArtifactStore, k: Key)
    requires QuotaInvariant(a) && k in a.objects && a.objects[k].status.Charged()
    ensures UsageOf(a, k.tenant).bytes >= a.objects[k].sizeBytes && UsageOf(a, k.tenant).objects >= 1
    ensures k.tenant in a.usage
  {
    var w, c := ByteWeight(k.tenant), CountWeight(k.tenant);
    assert Balanced(a, k.tenant);
    TotalRemove(a.objects, k, w);
    TotalRemove(a.objects, k, c);
    TotalNonNegative(a.objects - {k}, w);
    TotalNonNegative(a.objects - {k}, c);
  }

  lemma ReserveConserves(a: ArtifactStore, o: ArtifactObject, quota: ArtifactQuota)
    requires QuotaInvariant(a) && DecideReserve(a, o, quota).Commit?
    ensures var ArtifactRecord(obj, usage, lease) := DecideReserve(a, o, quota).record;
            QuotaInvariant(UpdateArtifacts(a, obj, usage, lease))
  {
    var ArtifactRecord(obj, usage, lease) := DecideReserve(a, o, quota).record;
    var after := UpdateArtifacts(a, obj, usage, lease);
    forall t ensures Balanced(after, t) {
      assert Balanced(a, t);
      ChargeAfterUpdate(a, obj.value, t);
    }
  }

  /** Releasing a PENDING object's reservation, or a DELETING object's bytes. */
  lemma ReleaseConserves(a: ArtifactStore, k: Key, o: ArtifactObject, lease: Option<(Key, Lease)>)
    requires QuotaInvariant(a) && k in a.objects && a.objects[k].status.Charged()
    requires o.ResourceKey() == k && !o.status.Charged() && o.sizeBytes == a.objects[k].sizeBytes
    ensures var usage := UsageOf(a, k.tenant);
            var lower := usage.(bytes := usage.bytes - o.sizeBytes, objects := usage.objects - 1);
            QuotaInvariant(UpdateArtifacts(a, Some(o), Some(lower), lease))
  {
    ChargedIsCovered(a, k);
    var usage := UsageOf(a, k.tenant);
    var lower := usage.(bytes := usage.bytes - o.sizeBytes, objects := usage.objects - 1);
    var after := UpdateArtifacts(a, Some(o), Some(lower), lease);
    forall t ensures Balanced(after, t) {
      assert Balanced(a, t);
      ChargeAfterUpdate(a, o, t);
    }
  }

  /** Finalising an object or claiming it for deletion moves it between charged statuses. */
  lemma RelabelConserves(a: ArtifactStore, k: Key, o: ArtifactObject, lease: Option<(Key, Lease)>)
    requires QuotaInvariant(a) && k in a.objects && a.objects[k].status.Charged()
    requires o.ResourceKey() == k && o.status.Charged() && o.sizeBytes == a.objects[k].sizeBytes
    ensures QuotaInvariant(UpdateArtifacts(a, Some(o), None, lease))
  {
    var after := UpdateArtifacts(a, Some(o), None, lease);
    forall t ensures Balanced(after, t) {
      assert Balanced(a, t);
      ChargeAfterUpdate(a, o, t);
    }
  }

  lemma ArtifactOpConserves(a: ArtifactStore, op: ArtifactOp)
    requires QuotaInvariant(a) && DecideArtifact(a, op).Commit?
    ensures QuotaInvariant(ArtifactsAfter(a, DecideArtifact(a, op).record))
  {
    var record := DecideArtifact(a, op).record;
    match op
    case ReserveArtifact(obj, quota) => ReserveConserves(a, obj, quota);
    case FinalizeArtifact(key, _, _, _, _, _) =>
      assert key in a.objects && a.objects[key].status.Pending?;
      RelabelConserves(a, key, record.obj.value, None);
    case FailArtifact(key, _, _) =>
      assert key in a.objects && a.objects[key].status.Pending?;
      ReleaseConserves(a, key, record.obj.value, None);
    case ClaimExpired(key, _, _, _) => RelabelConserves(a, key, record.obj.value, record.objectLease);
    case CompleteDeletion(key, _, _) =>
      assert key in a.objects && a.objects[key].status.Deleting?;
      ReleaseConserves(a, key, record.obj.value, record.objectLease);
    case RenewArtifact(_, _, _, _) => LeaseUpdateConserves(a, record.objectKey, record.deletionLease);
    case RetryDeletion(_, _, _) => LeaseUpdateConserves(a, record.objectKey, record.deletionLease);
  }

  lemma LeaseUpdateConserves(a: ArtifactStore, k: Key, lease: Lease)
    requires QuotaInvariant(a)
    ensures QuotaInvariant(a.(leases := a.leases[k := lease]))
  {
    var after := a.(leases := a.leases[k := lease]);
    forall t ensures Balanced(after, t) {
      assert Balanced(a, t);
    }
  }

  /** Losing the storage keys on reopening changes no charge. */
  lemma ReopenConserves(replayed: ArtifactStore, a: ArtifactStore)
    requires QuotaInvariant(a) && replayed.usage == a.usage && SameButStorageKeys(replayed.objects, a.objects)
    ensures QuotaInvariant(replayed)
  {
    forall t ensures Balanced(replayed, t) {
      assert Balanced(a, t);
      TotalCongruent(replayed.objects, a.objects, ByteWeight(t));
      TotalCongruent(replayed.objects, a.objects, CountWeight(t));
    }
  }

  lemma ExecConserves(sys: System, op: Op)
    requires QuotaInvariant(sys.mem.artifacts) && Refines(Replay(sys.file), sys.mem, sys.pruned)
    ensures QuotaInvariant(Exec(sys, op).mem.artifacts)
  {
    ArtifactsAfterExec(sys, op);
    if op.Reopen? {
      ReopenConserves(Replay(sys.file).artifacts, sys.mem.artifacts);
    } else if op.ArtifactCall? && DecideArtifact(sys.mem.artifacts, op.artifact).Commit? {
      ArtifactOpConserves(sys.mem.artifacts, op.artifact);
    }
  }

  /** Quota conservation over every run. */
  lemma {:induction false} UsageIsTheSumOfChargedObjects(ops: seq<Op>)
    ensures QuotaInvariant(Run(INITIAL, ops).mem.artifacts)
  {
    if ops == [] {
      forall t ensures Balanced(EMPTY.artifacts, t) {}
    } else {
      var earlier := ops[..|ops| - 1];
      UsageIsTheSumOfChargedObjects(earlier);
      ReplayRestoresMemory(earlier);
      ExecConserves(Run(INITIAL, earlier), ops[|ops| - 1]);
    }
  }

  /** The store's "usage invariant violated" error is unreachable. */
  lemma UsageViolationUnreachable(ops: seq<Op>, op: ArtifactOp)
    ensures DecideArtifact(Run(INITIAL, ops).mem.artifacts, op) != Refuse(UsageInvariantViolated)
  {
    var a := Run(INITIAL, ops).mem.artifacts;
    UsageIsTheSumOfChargedObjects(ops);
    match op
    case FailArtifact(key, _, _) =>
      if key in a.objects && a.objects[key].status.Pending? { ChargedIsCovered(a, key); }
    case CompleteDeletion(key, _, _) =>
      if key in a.objects && a.objects[key].status.Deleting? { ChargedIsCovered(a, key); }
    case _ =>
  }

  ghost predicate ReservesUnder(ops: seq<Op>, quota: ArtifactQuota) {
    forall i :: 0 <= i < |ops| && ops[i].ArtifactCall? && ops[i].artifact.ReserveArtifact? ==>
      ops[i].artifact.quota == quota
  }

  ghost predicate Within(usage: ArtifactUsage, quota: ArtifactQuota) {
    (quota.maxBytes > 0 ==> usage.bytes <= quota.maxBytes) &&
    (quota.maxObjects > 0 ==> usage.objects <= quota.maxObjects)
  }

  lemma ArtifactOpStaysWithin(a: ArtifactStore, op: ArtifactOp, quota: ArtifactQuota, tenant: string)
    requires QuotaInvariant(a) && DecideArtifact(a, op).Commit?
    requires op.ReserveArtifact? ==> op.quota == quota
    requires Within(UsageOf(a, tenant), quota)
    ensures Within(UsageOf(ArtifactsAfter(a, DecideArtifact(a, op).record), tenant), quota)
  {
    match op
    case FailArtifact(key, _, _) => ChargedIsCovered(a, key);
    case CompleteDeletion(key, _, _) => ChargedIsCovered(a, key);
    case _ =>
  }

  /** Under one fixed quota, no tenant's usage ever exceeds it. */
  lemma {:induction false} UsageNeverExceedsQuota(ops: seq<Op>, quota: ArtifactQuota, tenant: string)
    requires ReservesUnder(ops, quota)
    ensures Within(UsageOf(Run(INITIAL, ops).mem.artifacts, tenant), quota)
  {
    if ops != [] {
      var earlier := ops[..|ops| - 1];
      UsageNeverExceedsQuota(earlier, quota, tenant);
      UsageIsTheSumOfChargedObjects(earlier);
      ReplayRestoresMemory(earlier);
      var sys, op := Run(INITIAL, earlier), ops[|ops| - 1];
      ArtifactsAfterExec(sys, op);
      if op.ArtifactCall? && DecideArtifact(sys.mem.artifacts, op.artifact).Commit? {
        ArtifactOpStaysWithin(sys.mem.artifacts, op.artifact, quota, tenant);
      }
    }
  }
}
