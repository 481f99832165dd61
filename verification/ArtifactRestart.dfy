/**
 What a restart does to artifacts (internal/core/model.go leaves the storage key out of the journal): the bytes of
 every finalised object are stranded. It is never served again, and its deletion never completes, because the
 object store refuses an empty key; so it counts against its tenant's quota for good.
 */
module ArtifactRestart {
  import opened Wrappers
  import opened Model
  import opened Journal
  import opened JournalOps
  import opened JournalRefinement
  import opened JournalStoreImpl
  import opened QuotaConservation
  import opened ArtifactIngest
  import opened Worlds

  /** The world a process finds when it starts again: its own work is gone, and so are the storage keys. */
  function Restarted(w: World): World {
    World(w.store.(objects := map k | k in w.store.objects :: Unkeyed(w.store.objects[k])), w.blobs, map[], map[])
  }

  /** That is what reopening the journal makes of the artifacts, in every state of every run. */
  lemma RestartIsReopen(ops: seq<Op>, w: World)
    requires w.store == Run(INITIAL, ops).mem.artifacts
    ensures Restarted(w).store == Run(INITIAL, ops + [Reopen]).mem.artifacts
  {
    var sys := Run(INITIAL, ops);
    RunAppend(INITIAL, ops, Reopen);
    ArtifactsAfterExec(sys, Reopen);
    ReplayedArtifacts(ops);
    UnkeyedAll(Replay(sys.file).artifacts.objects, w.store.objects);
  }

  lemma ReplayedArtifacts(ops: seq<Op>)
    ensures var sys := Run(INITIAL, ops);
            SameButStorageKeys(Replay(sys.file).artifacts.objects, sys.mem.artifacts.objects) &&
            Replay(sys.file).artifacts.usage == sys.mem.artifacts.usage &&
            Replay(sys.file).artifacts.leases == sys.mem.artifacts.leases
  {
    ReplayRestoresMemory(ops);
  }

  lemma UnkeyedAll(replayed: map<Key, ArtifactObject>, mem: map<Key, ArtifactObject>)
    requires SameButStorageKeys(replayed, mem)
    ensures replayed == map k | k in mem :: Unkeyed(mem[k])
  {
  }

  /** The object had its bytes, or was on its way out, and does not know its key any more. */
  ghost predicate Stranded(w: World, k: Key) {
    k in w.store.objects && w.store.objects[k].storageKey == "" &&
    (Final(w.store.objects[k].status) || w.store.objects[k].status.Deleting?)
  }

  /** No blob has the empty key, and no worker can have deleted the blob of a stranded object. */
  ghost predicate Hopeless(w: World, k: Key) {
    Stranded(w, k) && KeyedObjects(w.store) && "" !in w.blobs &&
    forall j :: j in w.deletions && w.deletions[j].key == k ==>
      w.deletions[j].storageKey == "" && !w.deletions[j].blobDeleted
  }

  lemma OtherObjectsStay(s: ArtifactStore, op: ArtifactOp, k: Key)
    requires KeyedObjects(s) && !op.ReserveArtifact? && op.key != k && k in s.objects
    ensures KeyedObjects(Do(s, op)) && k in Do(s, op).objects && Do(s, op).objects[k] == s.objects[k]
  {
  }

  lemma StrandedStays(s: ArtifactStore, op: ArtifactOp, k: Key)
    requires KeyedObjects(s) && !op.ReserveArtifact? && op.key == k && !op.CompleteDeletion?
    requires op.FinalizeArtifact? ==> op.storageKey != ""
    requires k in s.objects && s.objects[k].storageKey == "" &&
             (Final(s.objects[k].status) || s.objects[k].status.Deleting?)
    ensures KeyedObjects(Do(s, op)) && k in Do(s, op).objects && Do(s, op).objects[k].storageKey == ""
    ensures Final(Do(s, op).objects[k].status) || Do(s, op).objects[k].status.Deleting?
  {
  }

  lemma ReserveStrands(s: ArtifactStore, obj: ArtifactObject, quota: ArtifactQuota, k: Key)
    requires KeyedObjects(s) && k in s.objects && !s.objects[k].status.FailedObject?
    ensures var next := Do(s, ReserveArtifact(obj, quota));
            KeyedObjects(next) && k in next.objects && next.objects[k] == s.objects[k]
  {
    ReserveEffect(s, obj, quota);
  }

  lemma OpKeepsStranded(s: ArtifactStore, op: ArtifactOp, k: Key)
    requires KeyedObjects(s) && k in s.objects && s.objects[k].storageKey == ""
    requires Final(s.objects[k].status) || s.objects[k].status.Deleting?
    requires op.CompleteDeletion? ==> op.key != k
    requires op.FinalizeArtifact? ==> op.storageKey != ""
    ensures KeyedObjects(Do(s, op)) && k in Do(s, op).objects && Do(s, op).objects[k].storageKey == ""
    ensures Final(Do(s, op).objects[k].status) || Do(s, op).objects[k].status.Deleting?
  {
    if op.ReserveArtifact? {
      ReserveStrands(s, op.obj, op.quota, k);
    } else if op.key == k {
      StrandedStays(s, op, k);
    } else {
      OtherObjectsStay(s, op, k);
    }
  }

  lemma IngestKeepsHopeless(w: World, step: Step, d: Discipline, tenantOf: string -> string, k: Key)
    requires Hopeless(w, k) && Legal(w, step, d, tenantOf) && (step.FailScan? || step.GiveUp? || step.Finalize?)
    ensures Hopeless(Next(w, step, d, tenantOf), k)
  {
    var key := KeyOfIngest(w.ingests[step.i]);
    match step
    case FailScan(i, code, now) => OpKeepsStranded(w.store, FailArtifact(key, code, now), k);
    case GiveUp(i, now) => OpKeepsStranded(w.store, FailArtifact(key, "METADATA_FINALIZE_FAILED", now), k);
    case Finalize(i, mediaType, scan, now) =>
      OpKeepsStranded(w.store,
                      FinalizeArtifact(key, StorageKey(key.id), mediaType, scan, w.ingests[i].phase.status, now), k);
  }

  lemma DeletionKeepsHopeless(w: World, step: Step, d: Discipline, tenantOf: string -> string, k: Key)
    requires Hopeless(w, k) && Legal(w, step, d, tenantOf) && (step.Claim? || step.Complete? || step.RenewOrRetry?)
    ensures Hopeless(Next(w, step, d, tenantOf), k)
  {
    match step
    case Claim(j, key, owner, now, duration) => OpKeepsStranded(w.store, ClaimExpired(key, owner, now, duration), k);
    case Complete(j, owner, now) => OpKeepsStranded(w.store, CompleteDeletion(w.deletions[j].key, owner, now), k);
    case RenewOrRetry(op) => OpKeepsStranded(w.store, op, k);
  }

  lemma NextKeepsHopeless(w: World, step: Step, d: Discipline, tenantOf: string -> string, k: Key)
    requires Hopeless(w, k) && Legal(w, step, d, tenantOf)
    ensures Hopeless(Next(w, step, d, tenantOf), k)
  {
    if step.Reserve? {
      OpKeepsStranded(w.store, ReserveArtifact(step.obj, step.quota), k);
    } else if step.FailScan? || step.GiveUp? || step.Finalize? {
      IngestKeepsHopeless(w, step, d, tenantOf, k);
    } else if step.Claim? || step.Complete? || step.RenewOrRetry? {
      DeletionKeepsHopeless(w, step, d, tenantOf, k);
    }
  }

  lemma RestartStrands(w: World, d: Discipline, tenantOf: string -> string, k: Key)
    requires Safe(d, tenantOf) && Reaches(START, w, Steps(d, tenantOf))
    requires k in w.store.objects && (Final(w.store.objects[k].status) || w.store.objects[k].status.Deleting?)
    ensures Hopeless(Restarted(w), k)
  {
    ReachableIsGood(w, d, tenantOf);
    BlobsAreNamed(w, d, tenantOf);
    forall m | m in w.store.objects ensures Unkeyed(w.store.objects[m]).ResourceKey() == m {
      assert ObjectOk(m, w.store.objects[m], w.blobs, tenantOf);
    }
  }

  lemma BlobsAreNamed(w: World, d: Discipline, tenantOf: string -> string)
    requires Reaches(START, w, Steps(d, tenantOf))
    ensures "" !in w.blobs
  {
    forall a: World, step | "" !in a.blobs && Legal(a, step, d, tenantOf)
      ensures "" !in Next(a, step, d, tenantOf).blobs
    {
    }
    ReachableKeeps(START, w, Steps(d, tenantOf), (a: World) => "" !in a.blobs);
  }

  /**
   After a restart, every object that was available, quarantined or being deleted stays so or is being deleted for
   good: in every later world its storage key is empty and no blob is under it, so it can neither be opened nor
   deleted, and it stays charged to its tenant.
   */
  lemma RestartStrandsObjects(w: World, v: World, d: Discipline, tenantOf: string -> string, k: Key)
    requires Safe(d, tenantOf) && Reaches(START, w, Steps(d, tenantOf))
    requires k in w.store.objects && (Final(w.store.objects[k].status) || w.store.objects[k].status.Deleting?)
    requires Reaches(Restarted(w), v, Steps(d, tenantOf))
    ensures k in v.store.objects && v.store.objects[k].storageKey == "" && "" !in v.blobs
    ensures v.store.objects[k].status.Charged() && !v.store.objects[k].status.Deleted?
  {
    RestartStrands(w, d, tenantOf, k);
    forall a, step | Hopeless(a, k) && Legal(a, step, d, tenantOf) ensures Hopeless(Next(a, step, d, tenantOf), k) {
      NextKeepsHopeless(a, step, d, tenantOf, k);
    }
    ReachableKeeps(Restarted(w), v, Steps(d, tenantOf), (a: World) => Hopeless(a, k));
  }
}
