/**
 The status of an artifact object over every run of the store, and the ingest service and lifecycle worker
 (internal/artifact/service.go, internal/artifact/lifecycle.go) as objects whose calls are runs of
 ArtifactIngest's world.
 */
module ArtifactServiceImpl {
  import opened Wrappers
  import opened Model
  import opened Journal
  import opened JournalOps
  import opened JournalRefinement
  import opened QuotaConservation
  import opened ArtifactIngest
  import opened Worlds
  import opened JournalStoreImpl
  import opened Ordering

  // Status edges

  function StatusAt(s: ArtifactStore, k: Key): Option<ObjectStatus> {
    if k in s.objects then Some(s.objects[k].status) else None
  }

  /** The edges of the object's life; staying put is allowed. */
  predicate Edge(a: Option<ObjectStatus>, b: Option<ObjectStatus>) {
    a == b ||
    match a
    case None => b == Some(Pending)
    case Some(Pending) => b == Some(Available) || b == Some(Quarantined) || b == Some(FailedObject)
    case Some(FailedObject) => b == Some(Pending)
    case Some(Available) => b == Some(Deleting)
    case Some(Quarantined) => b == Some(Deleting)
    case Some(Deleting) => b == Some(ObjectStatus.Deleted)
    case Some(Deleted) => false
  }

  lemma ArtifactOpFollowsEdge(s: ArtifactStore, op: ArtifactOp, k: Key)
    requires Filed(s)
    ensures Edge(StatusAt(s, k), StatusAt(Do(s, op), k))
  {
    match op
    case ReserveArtifact(obj, quota) => ReserveEffect(s, obj, quota);
    case _ =>
  }

  /** Whatever is called, in any state of any run, an object's status moves along an edge or not at all. */
  lemma StatusFollowsEdges(ops: seq<Op>, op: Op, k: Key)
    ensures Edge(StatusAt(Run(INITIAL, ops).mem.artifacts, k), StatusAt(Run(INITIAL, ops + [op]).mem.artifacts, k))
  {
    var sys := Run(INITIAL, ops);
    UsageIsTheSumOfChargedObjects(ops);
    ReplayRestoresMemory(ops);
    RunAppend(INITIAL, ops, op);
    ArtifactsAfterExec(sys, op);
    if op.ArtifactCall? {
      ArtifactOpFollowsEdge(sys.mem.artifacts, op.artifact, k);
    }
  }

  /** DELETED is absorbing, reopenings included. */
  lemma {:induction false} DeletedIsAbsorbing(ops: seq<Op>, more: seq<Op>, k: Key)
    requires StatusAt(Run(INITIAL, ops).mem.artifacts, k) == Some(ObjectStatus.Deleted)
    ensures StatusAt(Run(INITIAL, ops + more).mem.artifacts, k) == Some(ObjectStatus.Deleted)
  {
    if more == [] {
      assert ops + more == ops;
    } else {
      var n := |more| - 1;
      DeletedIsAbsorbing(ops, more[..n], k);
      StatusFollowsEdges(ops + more[..n], more[n], k);
      assert ops + more == (ops + more[..n]) + [more[n]];
    }
  }

  // The services

  class ObjectStore {
    /** The size of each stored blob. */
    var blobs: map<string, int>

    method Put(key: string, size: int)
      modifies this
      ensures blobs == old(blobs)[key := size]
    {
      blobs := blobs[key := size];
    }

    method Delete(key: string)
      modifies this
      ensures blobs == old(blobs) - {key}
    {
      blobs := blobs - {key};
    }
  }

  datatype IngestError =
    | NotAdmitted
    | NotReserved(error: StoreError)
    | ScanFailed
    | CleanScanRequired
    | BlobNotWritten
    | FinalizeFailed(cause: StoreError)

  datatype OpenError = NoSuchObject | Unavailable | NoBlob | SizeMismatch

  /** What the scan, and a blob that can be written or not, lead to: a final status, or none. */
  function Verdict(scan: Option<ScanStatus>, requireClean: bool, writes: bool): Option<ObjectStatus> {
    if scan.None? || scan.value.ScanError? || (requireClean && !scan.value.Clean?) || !writes then None
    else Some(if scan.value.Infected? then Quarantined else Available)
  }

  /** The object's bytes may be handed out. */
  predicate MayServe(o: ArtifactObject, requireClean: bool) {
    o.status == Available && (requireClean ==> o.scanStatus == Clean)
  }

  /** What a scan says of a finalised object: it is quarantined if infected, and served if not and if clean enough. */
  ghost predicate FinalisedAs(o: ArtifactObject, mediaType: string, scan: ScanStatus, requireClean: bool) {
    o.scanStatus == scan && o.detectedMediaType == mediaType && scan != ScanError &&
    (o.status == Quarantined <==> scan == Infected) && (o.status == Available <==> scan != Infected) &&
    (MayServe(o, requireClean) <==> scan != Infected && (requireClean ==> scan == Clean))
  }

  /** The failure code that is recorded for an error. */
  function CodeOf(e: IngestError): string {
    match e
    case ScanFailed => "SCAN_FAILED"
    case CleanScanRequired => "CLEAN_SCAN_REQUIRED"
    case BlobNotWritten => "OBJECT_WRITE_FAILED"
    case FinalizeFailed(_) => "METADATA_FINALIZE_FAILED"
    case _ => ""
  }

  /** Why an object that is reserved cannot be finalised, if it cannot. */
  ghost predicate FailsFor(e: IngestError, scan: Option<ScanStatus>, requireClean: bool, writes: bool) {
    var scanned := scan.Some? && scan.value != ScanError;
    (e == ScanFailed <==> !scanned) &&
    (e == CleanScanRequired <==> scanned && requireClean && scan.value != Clean) &&
    (e == BlobNotWritten <==> scanned && (requireClean ==> scan.value == Clean) && !writes) &&
    !e.NotAdmitted? && !e.NotReserved?
  }

  /** A failed ingest is recorded with its code, and leaves no blob of its own. */
  ghost predicate LeftFailed(before: World, after: World, key: Key, e: IngestError, now: Time) {
    after.store == Do(before.store, FailArtifact(key, CodeOf(e), now)) &&
    after.blobs == if e.FinalizeFailed? then before.blobs - {StorageKey(key.id)} else before.blobs
  }

  /** A finalised object and its blob are all that is new. */
  ghost predicate LeftFinal(before: World, after: World, key: Key, o: ArtifactObject, size: int) {
    after.store.objects == before.store.objects[key := o] && after.blobs == before.blobs[StorageKey(key.id) := size]
  }

  /** The world is reached by legal steps from the start, under a discipline that keeps it good. */
  ghost predicate Reached(w: World, d: Discipline, tenantOf: string -> string) {
    Safe(d, tenantOf) && Reaches(START, w, Steps(d, tenantOf))
  }

  lemma ReachedObject(w: World, d: Discipline, tenantOf: string -> string, k: Key)
    requires Reached(w, d, tenantOf) && k in w.store.objects
    ensures ObjectOk(k, w.store.objects[k], w.blobs, tenantOf)
  {
    ReachableIsGood(w, d, tenantOf);
  }

  lemma ReachedIngest(w: World, d: Discipline, tenantOf: string -> string, i: nat)
    requires Reached(w, d, tenantOf) && i in w.ingests
    ensures IngestOk(w.ingests[i], w.store.objects, w.blobs, tenantOf)
  {
    ReachableIsGood(w, d, tenantOf);
  }

  lemma ReachedDeletion(w: World, d: Discipline, tenantOf: string -> string, j: nat)
    requires Reached(w, d, tenantOf) && j in w.deletions
    ensures DeletionOk(w.deletions[j], w.store.objects) && w.deletions[j].storageKey != ""
  {
    ReachableIsGood(w, d, tenantOf);
    assert DeletionOk(w.deletions[j], w.store.objects);
  }

  class ArtifactService {
    const metadata: JournalStore
    const objects: ObjectStore
    const requireClean: bool
    const quota: ArtifactQuota
    /** The world the two stores belong to. */
    ghost var world: World
    ghost const discipline: Discipline
    ghost const tenantOf: string -> string

    constructor (metadata: JournalStore, objects: ObjectStore, requireClean: bool, quota: ArtifactQuota,
                 ghost discipline: Discipline, ghost tenantOf: string -> string)
      requires metadata.artifacts == EMPTY.artifacts && objects.blobs == map[] && Safe(discipline, tenantOf)
      ensures Valid() && this.metadata == metadata && this.objects == objects && world == START
      ensures this.requireClean == requireClean && this.quota == quota
      ensures this.discipline == discipline && this.tenantOf == tenantOf
    {
      this.metadata, this.objects, this.requireClean, this.quota := metadata, objects, requireClean, quota;
      this.discipline, this.tenantOf, world := discipline, tenantOf, START;
      ReachesItself(START, Steps(discipline, tenantOf));
    }

    ghost predicate Valid()
      reads this, metadata, objects
    {
      Reached(world, discipline, tenantOf) && metadata.artifacts == world.store && objects.blobs == world.blobs
    }

    ghost predicate May(step: Step)
      reads this
    {
      Legal(world, step, discipline, tenantOf)
    }

    ghost method Take(step: Step)
      requires Reached(world, discipline, tenantOf) && May(step)
      modifies `world
      ensures Reached(world, discipline, tenantOf) && world == Next(old(world), step, discipline, tenantOf)
    {
      var next := Next(world, step, discipline, tenantOf);
      StepReaches(START, world, step, next, Steps(discipline, tenantOf));
      world := next;
    }

    method ReserveObject(ghost i: nat, obj: ArtifactObject) returns (decision: Decision)
      requires Valid() && May(Reserve(i, obj, quota))
      modifies this, metadata
      ensures Valid() && decision == DecideReserve(old(world).store, obj, quota)
      ensures world == AfterReserve(old(world), i, obj, quota)
    {
      ArtifactsAfterExec(metadata.Now(), ArtifactCall(ReserveArtifact(obj, quota)));
      decision := metadata.Reserve(obj, quota);
      Take(Reserve(i, obj, quota));
    }

    /** Records a failed ingest, which is then over. */
    method FailObject(ghost i: nat, key: Key, code: string, now: Time, ghost step: Step)
      requires Valid() && May(step) &&
               (step == FailScan(i, code, now) || (step == GiveUp(i, now) && code == "METADATA_FINALIZE_FAILED"))
      requires i in world.ingests && KeyOfIngest(world.ingests[i]) == key
      modifies this, metadata
      ensures Valid() && world.ingests == old(world).ingests - {i}
      ensures world.store == Do(old(world).store, FailArtifact(key, code, now)) && world.blobs == old(world).blobs
    {
      ArtifactsAfterExec(metadata.Now(), ArtifactCall(FailArtifact(key, code, now)));
      var _ := metadata.Fail(key, code, now);
      Take(step);
    }

    method PutObject(ghost i: nat, obj: ArtifactObject, status: ObjectStatus)
      requires Valid() && May(PutBlob(i, status)) && world.ingests[i].obj == obj
      modifies this, objects
      ensures Valid() && world.store == old(world).store
      ensures world.ingests == old(world).ingests[i := Ingestion(obj, Written(status))]
      ensures world.blobs == old(world).blobs[StorageKey(obj.id) := obj.sizeBytes]
    {
      var storageKey := (if |obj.id| >= 2 then obj.id[..2] else obj.id) + "/" + obj.id;
      objects.Put(storageKey, obj.sizeBytes);
      Take(PutBlob(i, status));
    }

    method FinalizeObject(ghost i: nat, key: Key, status: ObjectStatus, mediaType: string, scan: ScanStatus, now: Time)
      returns (decision: Decision)
      requires Valid() && May(Finalize(i, mediaType, scan, now))
      requires KeyOfIngest(world.ingests[i]) == key && world.ingests[i].phase == Written(status)
      modifies this, metadata
      ensures Valid() && world == AfterFinalize(old(world), i, mediaType, scan, now)
      ensures decision == DecideArtifact(old(world).store,
                                         FinalizeArtifact(key, StorageKey(key.id), mediaType, scan, status, now))
    {
      var storageKey := (if |key.id| >= 2 then key.id[..2] else key.id) + "/" + key.id;
      ArtifactsAfterExec(metadata.Now(), ArtifactCall(FinalizeArtifact(key, storageKey, mediaType, scan, status, now)));
      decision := metadata.Finalize(key, storageKey, mediaType, scan, status, now);
      Take(Finalize(i, mediaType, scan, now));
    }

    /** Deletes the blob of an ingest whose object could not be finalised. */
    method UndoObject(ghost i: nat, key: Key)
      requires Valid() && May(UndoBlob(i)) && KeyOfIngest(world.ingests[i]) == key
      modifies this, objects
      ensures Valid() && world.ingests == old(world).ingests[i := old(world).ingests[i].(phase := Undone)]
      ensures world.store == old(world).store && world.blobs == old(world).blobs - {StorageKey(key.id)}
    {
      var storageKey := (if |key.id| >= 2 then key.id[..2] else key.id) + "/" + key.id;
      objects.Delete(storageKey);
      Take(UndoBlob(i));
    }

    /** Undoes the blob of an object that could not be finalised, and records the failure. */
    method GiveUpObject(ghost i: nat, key: Key, now: Time)
      requires Valid() && May(UndoBlob(i)) && KeyOfIngest(world.ingests[i]) == key
      modifies this, metadata, objects
      ensures Valid() && world.ingests == old(world).ingests - {i}
      ensures world.store == Do(old(world).store, FailArtifact(key, "METADATA_FINALIZE_FAILED", now))
      ensures world.blobs == old(world).blobs - {StorageKey(key.id)}
    {
      UndoObject(i, key);
      FailObject(i, key, "METADATA_FINALIZE_FAILED", now, GiveUp(i, now));
    }

    /** The object is final, with its blob in place. */
    ghost predicate Served(key: Key, o: ArtifactObject)
      reads metadata, objects
    {
      key in metadata.artifacts.objects && o == metadata.artifacts.objects[key] && Final(o.status) &&
      o.storageKey == StorageKey(key.id) && HasBlob(objects.blobs, o)
    }

    /** Writes the blob of a scanned object and finalises it; undoes the blob if it cannot. */
    method Store(ghost i: nat, obj: ArtifactObject, mediaType: string, scan: ScanStatus, status: ObjectStatus,
                 now: Time)
      returns (r: Result<ArtifactObject, IngestError>)
      requires Valid() && May(PutBlob(i, status)) && world.ingests[i].obj == obj
      modifies this, metadata, objects
      ensures Valid() && world.ingests == old(world).ingests - {i}
      ensures r.Ok? ==> Served(obj.ResourceKey(), r.value)
      ensures var key := obj.ResourceKey();
              key in old(world).store.objects &&
              (r.Ok? && old(world).store.objects[key].status.Pending? ==>
                 r.value.status == status && r.value.scanStatus == scan && r.value.detectedMediaType == mediaType) &&
              (r.Ok? <==>
                 old(world).store.objects[key].status.Pending? || old(world).store.objects[key].status == status)
      ensures r.Ok? ==> LeftFinal(old(world), world, obj.ResourceKey(), r.value, obj.sizeBytes)
      ensures r.Err? ==> r.error.FinalizeFailed? && LeftFailed(old(world), world, obj.ResourceKey(), r.error, now)
    {
      var key := obj.ResourceKey();
      ReachedIngest(world, discipline, tenantOf, i);
      ReachedObject(world, discipline, tenantOf, key);
      PutObject(i, obj, status);
      FinalizeEffect(world.store, key, mediaType, scan, status, now);
      var decision := FinalizeObject(i, key, status, mediaType, scan, now);
      if decision.Refuse? {
        GiveUpObject(i, key, now);
        return Err(FinalizeFailed(decision.error));
      }
      r := Ok(metadata.artifacts.objects[key]);
      ReachedObject(world, discipline, tenantOf, key);
    }

    /** Goes on with an object that is reserved and not final. */
    method ScanAndStore(ghost i: nat, obj: ArtifactObject, mediaType: string, scan: Option<ScanStatus>, writes: bool,
                        now: Time)
      returns (r: Result<ArtifactObject, IngestError>)
      requires Valid() && i in world.ingests && world.ingests[i] == Ingestion(obj, Scanning)
      requires discipline.Verdicts? ==> Verdict(scan, requireClean, writes) in discipline.allowed(obj.ResourceKey())
      requires obj.ResourceKey() in world.store.objects && !Final(world.store.objects[obj.ResourceKey()].status)
      modifies this, metadata, objects
      ensures Valid() && world.ingests == old(world).ingests - {i}
      ensures r.Ok? ==> Served(obj.ResourceKey(), r.value)
      ensures r.Ok? ==> scan.Some? && FinalisedAs(r.value, mediaType, scan.value, requireClean)
      ensures r.Ok? <==>
              old(world).store.objects[obj.ResourceKey()].status.Pending? && Verdict(scan, requireClean, writes).Some?
      ensures r.Ok? ==> LeftFinal(old(world), world, obj.ResourceKey(), r.value, obj.sizeBytes)
      ensures r.Err? ==>
                FailsFor(r.error, scan, requireClean, writes) &&
                LeftFailed(old(world), world, obj.ResourceKey(), r.error, now)
    {
      var key := obj.ResourceKey();
      if scan.None? || scan.value.ScanError? {
        FailObject(i, key, "SCAN_FAILED", now, FailScan(i, "SCAN_FAILED", now));
        return Err(ScanFailed);
      }
      if requireClean && !scan.value.Clean? {
        FailObject(i, key, "CLEAN_SCAN_REQUIRED", now, FailScan(i, "CLEAN_SCAN_REQUIRED", now));
        return Err(CleanScanRequired);
      }
      if !writes {
        FailObject(i, key, "OBJECT_WRITE_FAILED", now, FailScan(i, "OBJECT_WRITE_FAILED", now));
        return Err(BlobNotWritten);
      }
      r := Store(i, obj, mediaType, scan.value, if scan.value.Infected? then Quarantined else Available, now);
    }

    /** What an ingest of admitted bytes leaves: `begun` is the world after its reservation. */
    ghost predicate Outcome(before: World, begun: World, after: World, obj: ArtifactObject, scan: Option<ScanStatus>,
                            writes: bool, now: Time, r: Result<ArtifactObject, IngestError>) {
      match r
      case Ok(o) =>
        if begun == before then after == before else LeftFinal(begun, after, obj.ResourceKey(), o, obj.sizeBytes)
      case Err(NotReserved(e)) => DecideReserve(before.store, obj, quota) == Refuse(e) && after == before
      case Err(e) => FailsFor(e, scan, requireClean, writes) && LeftFailed(begun, after, obj.ResourceKey(), e, now)
    }

    /**
     Ingests an object: admits its bytes, reserves it, scans it, writes its blob and finalises it. `admitted` tells
     whether the bytes can be read and are of an allowed size and type, `writes` whether the blob can be written. It
     succeeds exactly when the bytes are admitted and the object can be reserved and is then final, or pending,
     passed by the scan and written. A pending object is then quarantined exactly if the scan found it infected, and
     Open hands it out exactly if it is not, and is clean where that is required. A failed ingest is recorded with the
     reason and leaves no blob.
     */
    method Ingest(ghost i: nat, obj: ArtifactObject, admitted: bool, mediaType: string, scan: Option<ScanStatus>,
                  writes: bool, now: Time)
      returns (r: Result<ArtifactObject, IngestError>)
      requires Valid() && May(Reserve(i, obj, quota))
      requires discipline.Verdicts? ==> Verdict(scan, requireClean, writes) in discipline.allowed(obj.ResourceKey())
      modifies this, metadata, objects
      ensures Valid() && world.ingests == old(world).ingests
      ensures !admitted ==> world == old(world)
      ensures r.Ok? ==> Served(obj.ResourceKey(), r.value)
      ensures var reserved := AfterReserve(old(world), i, obj, quota).store.objects;
              var key := obj.ResourceKey();
              r.Ok? <==>
              admitted && !DecideReserve(old(world).store, obj, quota).Refuse? && key in reserved &&
              (Final(reserved[key].status) ||
               (reserved[key].status.Pending? && writes && scan.Some? && scan.value != ScanError &&
                (requireClean ==> scan.value == Clean)))
      ensures var key := obj.ResourceKey();
              r.Ok? && AfterReserve(old(world), i, obj, quota).store.objects[key].status.Pending? ==>
                scan.Some? && FinalisedAs(r.value, mediaType, scan.value, requireClean)
      ensures admitted ==>
                Outcome(old(world), AfterReserve(old(world), i, obj, quota), world, obj, scan, writes, now, r)
    {
      if !admitted {
        return Err(NotAdmitted);
      }
      var key := obj.ResourceKey();
      ReserveEffect(world.store, obj, quota);
      ghost var ingests := world.ingests;
      var decision := ReserveObject(i, obj);
      if decision.Refuse? {
        return Err(NotReserved(decision.error));
      }
      assert key in world.store.objects;
      var current := metadata.artifacts.objects[key];
      ReachedObject(world, discipline, tenantOf, key);
      if decision.Keep? && (current.status.Available? || current.status.Quarantined?) {
        return Ok(current);
      }
      assert world.ingests == ingests[i := Ingestion(obj, Scanning)] && !Final(current.status);
      r := ScanAndStore(i, obj, mediaType, scan, writes, now);
      assert ingests[i := Ingestion(obj, Scanning)] - {i} == ingests;
    }

    /** Opens an object's bytes: every available object that may be served can be opened. */
    method Open(key: Key) returns (r: Result<ArtifactObject, OpenError>)
      requires Valid()
      ensures r.Ok? <==>
                key in metadata.artifacts.objects && metadata.artifacts.objects[key].status == Available &&
                (requireClean ==> metadata.artifacts.objects[key].scanStatus == Clean)
      ensures r.Ok? ==> r.value == metadata.artifacts.objects[key]
    {
      if key !in metadata.artifacts.objects {
        return Err(NoSuchObject);
      }
      var obj := metadata.artifacts.objects[key];
      if !obj.status.Available? || (requireClean && !obj.scanStatus.Clean?) {
        return Err(Unavailable);
      }
      ReachedObject(world, discipline, tenantOf, key);
      if obj.storageKey !in objects.blobs {
        return Err(NoBlob);
      }
      if objects.blobs[obj.storageKey] != obj.sizeBytes {
        return Err(SizeMismatch);
      }
      return Ok(obj);
    }
  }
}
