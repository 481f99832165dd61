/**
 Artifact ingest and deletion across the metadata store and the object store (internal/artifact/service.go,
 internal/artifact/lifecycle.go): every interleaving of ingests and lifecycle workers, each of which may stop
 anywhere.
 */
module ArtifactIngest {
  import opened Wrappers
  import opened Model
  import opened Journal
  import opened JournalOps
  import opened Worlds

  /** Where an object's bytes are stored: the first two characters of its ID, a slash, and its ID. */
  function StorageKey(id: string): string {
    (if |id| >= 2 then id[..2] else id) + "/" + id
  }

  lemma StorageKeyIsInjective(a: string, b: string)
    requires |a| >= 2 && |b| >= 2 && StorageKey(a) == StorageKey(b)
    ensures a == b
  {
    assert a == StorageKey(a)[3..] && b == StorageKey(b)[3..];
  }

  /** How far an ingest has come after its reservation. */
  datatype Phase = Scanning | Written(status: ObjectStatus) | Conflicted | Undone

  datatype Ingestion = Ingestion(obj: ArtifactObject, phase: Phase)

  /** A lifecycle worker's lease on an object, with the storage key it saw. */
  datatype Deletion = Deletion(key: Key, storageKey: string, blobDeleted: bool)

  /** The metadata, the size of each stored blob, and what is going on. */
  datatype World = World(store: ArtifactStore, blobs: map<string, int>, ingests: map<nat, Ingestion>,
                         deletions: map<nat, Deletion>)

  datatype Step =
    | Reserve(i: nat, obj: ArtifactObject, quota: ArtifactQuota)
    | FailScan(i: nat, code: string, now: Time)
    | PutBlob(i: nat, status: ObjectStatus)
    | Finalize(i: nat, mediaType: string, scan: ScanStatus, now: Time)
    | UndoBlob(i: nat)
    | GiveUp(i: nat, now: Time)
    | StopIngest(i: nat)
    | Claim(j: nat, key: Key, owner: string, now: Time, duration: int)
    | DeleteBlob(j: nat)
    | Complete(j: nat, owner: string, now: Time)
    | StopDeletion(j: nat)
    | RenewOrRetry(op: ArtifactOp)

  /**
   What is asked of the callers: either ingests of one object never overlap, or they may, and each meets one of
   the verdicts allowed for its object: the status it is finalised with, or None if its scan fails.
   */
  datatype Discipline = OneAtATime | Verdicts(allowed: Key -> set<Option<ObjectStatus>>)

  predicate Final(status: ObjectStatus) {
    status.Available? || status.Quarantined?
  }

  predicate Going(status: ObjectStatus) {
    status.Deleting? || status.Deleted?
  }

  /** An object ID is a digest that its tenant goes into, so it determines the tenant. */
  predicate GoodKey(k: Key, tenantOf: string -> string) {
    |k.id| >= 2 && tenantOf(k.id) == k.tenant
  }

  /** Objects under this key can be reserved. */
  predicate Reservable(k: Key, tenantOf: string -> string) {
    k.tenant != "" && GoodKey(k, tenantOf)
  }

  /** A verdict an ingest can meet. */
  predicate Possible(verdict: Option<ObjectStatus>) {
    verdict.None? || Final(verdict.value)
  }

  /** No object can meet two different verdicts. */
  ghost predicate OneVerdictEach(allowed: Key -> set<Option<ObjectStatus>>, tenantOf: string -> string) {
    forall k, a, b :: Reservable(k, tenantOf) && a in allowed(k) && b in allowed(k) && Possible(a) && Possible(b) ==>
      a == b
  }

  ghost predicate Safe(d: Discipline, tenantOf: string -> string) {
    d.Verdicts? ==> OneVerdictEach(d.allowed, tenantOf)
  }

  function KeyOfIngest(g: Ingestion): Key {
    g.obj.ResourceKey()
  }

  ghost predicate Legal(w: World, step: Step, d: Discipline, tenantOf: string -> string) {
    match step
    case Reserve(i, obj, quota) =>
      i !in w.ingests && GoodKey(obj.ResourceKey(), tenantOf) &&
      (d.OneAtATime? ==> forall m :: m in w.ingests ==> KeyOfIngest(w.ingests[m]) != obj.ResourceKey())
    case FailScan(i, _, _) =>
      i in w.ingests && w.ingests[i].phase.Scanning? &&
      (d.Verdicts? ==> None in d.allowed(KeyOfIngest(w.ingests[i])))
    case PutBlob(i, status) =>
      i in w.ingests && w.ingests[i].phase.Scanning? && Final(status) &&
      (d.Verdicts? ==> Some(status) in d.allowed(KeyOfIngest(w.ingests[i])))
    case Finalize(i, _, _, _) => i in w.ingests && w.ingests[i].phase.Written?
    case UndoBlob(i) => i in w.ingests && w.ingests[i].phase.Conflicted?
    case GiveUp(i, _) => i in w.ingests && w.ingests[i].phase.Undone?
    case StopIngest(i) => true
    case Claim(j, _, _, _, _) => j !in w.deletions
    case DeleteBlob(j) => j in w.deletions && !w.deletions[j].blobDeleted && w.deletions[j].storageKey != ""
    case Complete(j, _, _) => j in w.deletions && w.deletions[j].blobDeleted
    case StopDeletion(j) => true
    case RenewOrRetry(op) => op.RenewArtifact? || op.RetryDeletion?
  }

  function Do(s: ArtifactStore, op: ArtifactOp): ArtifactStore {
    var d := DecideArtifact(s, op);
    if d.Commit? then ArtifactsAfter(s, d.record) else s
  }

  function AfterReserve(w: World, i: nat, obj: ArtifactObject, quota: ArtifactQuota): World {
    var key := obj.ResourceKey();
    match DecideReserve(w.store, obj, quota)
    case Refuse(_) => w
    case Keep =>
      if key in w.store.objects && Final(w.store.objects[key].status) then w
      else w.(ingests := w.ingests[i := Ingestion(obj, Scanning)])
    case Commit(_) =>
      w.(store := Do(w.store, ReserveArtifact(obj, quota)), ingests := w.ingests[i := Ingestion(obj, Scanning)])
  }

  function AfterFinalize(w: World, i: nat, mediaType: string, scan: ScanStatus, now: Time): World
    requires i in w.ingests && w.ingests[i].phase.Written?
  {
    var key := KeyOfIngest(w.ingests[i]);
    var op := FinalizeArtifact(key, StorageKey(key.id), mediaType, scan, w.ingests[i].phase.status, now);
    if DecideArtifact(w.store, op).Refuse? then w.(ingests := w.ingests[i := w.ingests[i].(phase := Conflicted)])
    else w.(store := Do(w.store, op), ingests := w.ingests - {i})
  }

  function AfterClaim(w: World, j: nat, key: Key, owner: string, now: Time, duration: int): World {
    var op := ClaimExpired(key, owner, now, duration);
    if DecideArtifact(w.store, op).Commit? && key in w.store.objects then
      w.(store := Do(w.store, op), deletions := w.deletions[j := Deletion(key, w.store.objects[key].storageKey, false)])
    else w
  }

  ghost function Next(w: World, step: Step, d: Discipline, tenantOf: string -> string): World
    requires Legal(w, step, d, tenantOf)
  {
    match step
    case Reserve(i, obj, quota) => AfterReserve(w, i, obj, quota)
    case FailScan(i, code, now) =>
      w.(store := Do(w.store, FailArtifact(KeyOfIngest(w.ingests[i]), code, now)), ingests := w.ingests - {i})
    case PutBlob(i, status) =>
      w.(blobs := w.blobs[StorageKey(KeyOfIngest(w.ingests[i]).id) := w.ingests[i].obj.sizeBytes],
         ingests := w.ingests[i := w.ingests[i].(phase := Written(status))])
    case Finalize(i, mediaType, scan, now) => AfterFinalize(w, i, mediaType, scan, now)
    case UndoBlob(i) =>
      w.(blobs := w.blobs - {StorageKey(KeyOfIngest(w.ingests[i]).id)},
         ingests := w.ingests[i := w.ingests[i].(phase := Undone)])
    case GiveUp(i, now) =>
      w.(store := Do(w.store, FailArtifact(KeyOfIngest(w.ingests[i]), "METADATA_FINALIZE_FAILED", now)),
         ingests := w.ingests - {i})
    case StopIngest(i) => w.(ingests := w.ingests - {i})
    case Claim(j, key, owner, now, duration) => AfterClaim(w, j, key, owner, now, duration)
    case DeleteBlob(j) =>
      w.(blobs := w.blobs - {w.deletions[j].storageKey},
         deletions := w.deletions[j := w.deletions[j].(blobDeleted := true)])
    case Complete(j, owner, now) =>
      w.(store := Do(w.store, CompleteDeletion(w.deletions[j].key, owner, now)), deletions := w.deletions - {j})
    case StopDeletion(j) => w.(deletions := w.deletions - {j})
    case RenewOrRetry(op) => w.(store := Do(w.store, op))
  }

  ghost function Steps(d: Discipline, tenantOf: string -> string): (World, Step) -> Option<World> {
    (w: World, step: Step) => if Legal(w, step, d, tenantOf) then Some(Next(w, step, d, tenantOf)) else None
  }

  // The invariant

  predicate HasBlob(blobs: map<string, int>, o: ArtifactObject) {
    StorageKey(o.id) in blobs && blobs[StorageKey(o.id)] == o.sizeBytes
  }

  ghost predicate ObjectOk(k: Key, o: ArtifactObject, blobs: map<string, int>, tenantOf: string -> string) {
    o.ResourceKey() == k && GoodKey(k, tenantOf) &&
    (Final(o.status) || o.status.Deleting? ==> o.storageKey == StorageKey(k.id)) &&
    (Final(o.status) ==> HasBlob(blobs, o))
  }

  ghost predicate IngestOk(g: Ingestion, objects: map<Key, ArtifactObject>, blobs: map<string, int>,
                           tenantOf: string -> string) {
    var k := KeyOfIngest(g);
    Reservable(k, tenantOf) && k in objects && objects[k].sizeBytes == g.obj.sizeBytes &&
    (g.phase.Written? ==> Final(g.phase.status) && (objects[k].status.Pending? ==> HasBlob(blobs, objects[k]))) &&
    (g.phase.Conflicted? || g.phase.Undone? ==> Going(objects[k].status))
  }

  ghost predicate DeletionOk(x: Deletion, objects: map<Key, ArtifactObject>) {
    x.key in objects && Going(objects[x.key].status) && x.storageKey == StorageKey(x.key.id)
  }

  /** Under the discipline, no ingest at work can find its object failed, or finalised by another. */
  ghost predicate IngestDisciplined(g: Ingestion, objects: map<Key, ArtifactObject>, d: Discipline) {
    var k := KeyOfIngest(g);
    k in objects &&
    match d
    case OneAtATime => objects[k].status.Pending? || Going(objects[k].status)
    case Verdicts(allowed) => g.phase.Written? ==> Some(g.phase.status) in allowed(k)
  }

  /** An object's status is one that its allowed verdicts lead to. */
  ghost predicate StatusDisciplined(k: Key, o: ArtifactObject, d: Discipline) {
    d.Verdicts? ==>
      (o.status.FailedObject? ==> None in d.allowed(k)) && (Final(o.status) ==> Some(o.status) in d.allowed(k))
  }

  ghost predicate Alone(ingests: map<nat, Ingestion>, d: Discipline) {
    d.OneAtATime? ==>
      forall i, j :: i in ingests && j in ingests && i != j ==> KeyOfIngest(ingests[i]) != KeyOfIngest(ingests[j])
  }

  ghost predicate Good(w: World, d: Discipline, tenantOf: string -> string) {
    Safe(d, tenantOf) &&
    (forall k :: k in w.store.objects ==>
       ObjectOk(k, w.store.objects[k], w.blobs, tenantOf) && StatusDisciplined(k, w.store.objects[k], d)) &&
    (forall i :: i in w.ingests ==>
       IngestOk(w.ingests[i], w.store.objects, w.blobs, tenantOf) &&
       IngestDisciplined(w.ingests[i], w.store.objects, d)) &&
    (forall j :: j in w.deletions ==> DeletionOk(w.deletions[j], w.store.objects)) &&
    Alone(w.ingests, d)
  }

  // How one step keeps it

  /** The object moves on, in a way every ingest and deletion of it can live with. */
  ghost predicate FineMove(w: World, k: Key, o: ArtifactObject, d: Discipline, tenantOf: string -> string) {
    ObjectOk(k, o, w.blobs, tenantOf) && StatusDisciplined(k, o, d) &&
    (k in w.store.objects ==>
       o.sizeBytes == w.store.objects[k].sizeBytes &&
       (Going(w.store.objects[k].status) ==> Going(o.status)))
  }

  /** No ingest of the object is hurt by the move. */
  ghost predicate IngestsFine(ingests: map<nat, Ingestion>, w: World, k: Key, o: ArtifactObject, d: Discipline) {
    forall i :: i in ingests && KeyOfIngest(ingests[i]) == k && k in w.store.objects ==>
      (ingests[i].phase.Written? && o.status.Pending? ==> w.store.objects[k].status.Pending?) &&
      (d.OneAtATime? ==> o.status.Pending? || Going(o.status))
  }

  lemma MoveKeepsGood(w: World, k: Key, o: ArtifactObject, next: World, d: Discipline, tenantOf: string -> string)
    requires Good(w, d, tenantOf) && FineMove(w, k, o, d, tenantOf) && IngestsFine(next.ingests, w, k, o, d)
    requires next.store.objects == w.store.objects[k := o] && next.blobs == w.blobs && next.deletions == w.deletions
    requires forall i :: i in next.ingests ==> i in w.ingests && next.ingests[i] == w.ingests[i]
    ensures Good(next, d, tenantOf)
  {
    forall i | i in next.ingests
      ensures IngestOk(next.ingests[i], next.store.objects, next.blobs, tenantOf) &&
              IngestDisciplined(next.ingests[i], next.store.objects, d)
    {
      assert IngestOk(w.ingests[i], w.store.objects, w.blobs, tenantOf) &&
             IngestDisciplined(w.ingests[i], w.store.objects, d);
    }
    forall j | j in next.deletions ensures DeletionOk(next.deletions[j], next.store.objects) {
      assert DeletionOk(w.deletions[j], w.store.objects);
    }
  }

  /** Dropping ingests and deletions is harmless. */
  lemma StoppingKeepsGood(w: World, ingests: map<nat, Ingestion>, deletions: map<nat, Deletion>, d: Discipline,
                          tenantOf: string -> string)
    requires Good(w, d, tenantOf)
    requires forall i :: i in ingests ==> i in w.ingests && ingests[i] == w.ingests[i]
    requires forall j :: j in deletions ==>
               j in w.deletions && deletions[j].key == w.deletions[j].key &&
               deletions[j].storageKey == w.deletions[j].storageKey
    ensures Good(w.(ingests := ingests, deletions := deletions), d, tenantOf)
  {
    forall j | j in deletions ensures DeletionOk(deletions[j], w.store.objects) {
      assert DeletionOk(w.deletions[j], w.store.objects);
    }
  }

  /** An ingest that goes on to another phase. */
  lemma PhaseKeepsGood(w: World, i: nat, g: Ingestion, d: Discipline, tenantOf: string -> string)
    requires Good(w, d, tenantOf)
    requires IngestOk(g, w.store.objects, w.blobs, tenantOf) && IngestDisciplined(g, w.store.objects, d)
    requires d.OneAtATime? ==> forall m :: m in w.ingests && m != i ==> KeyOfIngest(w.ingests[m]) != KeyOfIngest(g)
    ensures Good(w.(ingests := w.ingests[i := g]), d, tenantOf)
  {
  }

  /** A blob may go when its object is going, or is not finalised and nobody relies on it. */
  lemma BlobGoneKeepsGood(w: World, k: Key, d: Discipline, tenantOf: string -> string)
    requires Good(w, d, tenantOf) && k in w.store.objects && Going(w.store.objects[k].status)
    ensures Good(w.(blobs := w.blobs - {StorageKey(k.id)}), d, tenantOf)
  {
    var blobs := w.blobs - {StorageKey(k.id)};
    forall m | m in w.store.objects && m != k && HasBlob(w.blobs, w.store.objects[m])
      ensures HasBlob(blobs, w.store.objects[m])
    {
      OtherStorageKey(w, m, k, d, tenantOf);
    }
    forall i | i in w.ingests ensures IngestOk(w.ingests[i], w.store.objects, blobs, tenantOf) {
      assert IngestOk(w.ingests[i], w.store.objects, w.blobs, tenantOf);
    }
    forall m | m in w.store.objects ensures ObjectOk(m, w.store.objects[m], blobs, tenantOf) {
      assert ObjectOk(m, w.store.objects[m], w.blobs, tenantOf);
    }
  }

  lemma OtherStorageKey(w: World, m: Key, k: Key, d: Discipline, tenantOf: string -> string)
    requires Good(w, d, tenantOf) && m in w.store.objects && k in w.store.objects && m != k
    ensures StorageKey(w.store.objects[m].id) != StorageKey(k.id) && StorageKey(m.id) != StorageKey(k.id)
  {
    assert ObjectOk(m, w.store.objects[m], w.blobs, tenantOf) && ObjectOk(k, w.store.objects[k], w.blobs, tenantOf);
    if StorageKey(m.id) == StorageKey(k.id) {
      StorageKeyIsInjective(m.id, k.id);
    }
  }

  /** Writing an object's blob, of the object's size. */
  lemma BlobWrittenKeepsGood(w: World, k: Key, d: Discipline, tenantOf: string -> string)
    requires Good(w, d, tenantOf) && k in w.store.objects
    ensures Good(w.(blobs := w.blobs[StorageKey(k.id) := w.store.objects[k].sizeBytes]), d, tenantOf)
  {
    var blobs := w.blobs[StorageKey(k.id) := w.store.objects[k].sizeBytes];
    forall m | m in w.store.objects && HasBlob(w.blobs, w.store.objects[m]) ensures HasBlob(blobs, w.store.objects[m]) {
      assert ObjectOk(k, w.store.objects[k], w.blobs, tenantOf);
      if m != k {
        OtherStorageKey(w, m, k, d, tenantOf);
      }
    }
    forall i | i in w.ingests ensures IngestOk(w.ingests[i], w.store.objects, blobs, tenantOf) {
      assert IngestOk(w.ingests[i], w.store.objects, w.blobs, tenantOf);
    }
    forall m | m in w.store.objects ensures ObjectOk(m, w.store.objects[m], blobs, tenantOf) {
      assert ObjectOk(m, w.store.objects[m], w.blobs, tenantOf);
    }
  }

  // What each store operation does to its object

  lemma ReserveEffect(s: ArtifactStore, obj: ArtifactObject, quota: ArtifactQuota)
    ensures var key := obj.ResourceKey();
            match DecideReserve(s, obj, quota)
            case Refuse(_) => true
            case Keep => key.tenant != "" && key in s.objects && !s.objects[key].status.FailedObject? &&
              s.objects[key].sizeBytes == obj.sizeBytes
            case Commit(_) =>
              key.tenant != "" && (key in s.objects ==>
               s.objects[key].status.FailedObject? && s.objects[key].sizeBytes == obj.sizeBytes) &&
              exists o: ArtifactObject ::
                o.ResourceKey() == key && o.status.Pending? && o.sizeBytes == obj.sizeBytes &&
                Do(s, ReserveArtifact(obj, quota)).objects == s.objects[key := o]
  {
    var d := DecideReserve(s, obj, quota);
    if d.Commit? {
      var o := d.record.obj.value;
      assert o.ResourceKey() == obj.ResourceKey() &&
             Do(s, ReserveArtifact(obj, quota)).objects == s.objects[obj.ResourceKey() := o];
    }
  }

  lemma FinalizeEffect(s: ArtifactStore, key: Key, mediaType: string, scan: ScanStatus, status: ObjectStatus, now: Time)
    requires key in s.objects && s.objects[key].ResourceKey() == key && Final(status)
    ensures var o := s.objects[key];
            var op := FinalizeArtifact(key, StorageKey(key.id), mediaType, scan, status, now);
            match DecideArtifact(s, op)
            case Refuse(_) => !o.status.Pending? && !(o.status == status && o.storageKey == StorageKey(key.id))
            case Keep => o.status == status
            case Commit(_) =>
              o.status.Pending? &&
              Do(s, op).objects == s.objects[key := o.(storageKey := StorageKey(key.id), detectedMediaType := mediaType,
                                                       scanStatus := scan, status := status, updatedAt := now)]
  {
  }

  lemma FailEffect(s: ArtifactStore, key: Key, code: string, now: Time)
    requires key in s.objects && s.objects[key].ResourceKey() == key
    ensures var o := s.objects[key];
            var objects := Do(s, FailArtifact(key, code, now)).objects;
            objects == s.objects ||
            (o.status.Pending? &&
             objects == s.objects[key := o.(status := FailedObject, failureCode := code, updatedAt := now)])
  {
  }

  lemma ClaimEffect(s: ArtifactStore, key: Key, owner: string, now: Time, duration: int)
    requires key in s.objects ==> s.objects[key].ResourceKey() == key
    requires DecideArtifact(s, ClaimExpired(key, owner, now, duration)).Commit?
    ensures key in s.objects && (Final(s.objects[key].status) || s.objects[key].status.Deleting?)
    ensures Do(s, ClaimExpired(key, owner, now, duration)).objects ==
            s.objects[key := s.objects[key].(status := Deleting, updatedAt := now)]
  {
  }

  lemma CompleteEffect(s: ArtifactStore, key: Key, owner: string, now: Time)
    requires key in s.objects && s.objects[key].ResourceKey() == key
    ensures var o := s.objects[key];
            var objects := Do(s, CompleteDeletion(key, owner, now)).objects;
            objects == s.objects ||
            (o.status.Deleting? &&
             objects == s.objects[key := o.(status := Deleted, updatedAt := now, deletedAt := Some(now))])
  {
  }

  // Every step keeps the invariant

  lemma SameObjectsKeepGood(w: World, store: ArtifactStore, d: Discipline, tenantOf: string -> string)
    requires Good(w, d, tenantOf) && store.objects == w.store.objects
    ensures Good(w.(store := store), d, tenantOf)
  {
  }

  lemma SameVerdicts(d: Discipline, tenantOf: string -> string, k: Key, a: Option<ObjectStatus>,
                     b: Option<ObjectStatus>)
    requires Safe(d, tenantOf) && d.Verdicts? && Reservable(k, tenantOf) && Possible(a) && Possible(b)
    requires a in d.allowed(k) && b in d.allowed(k)
    ensures a == b
  {
  }

  /** A failed object has no ingest that has written its blob. */
  lemma FailedHasNoWriter(w: World, i: nat, d: Discipline, tenantOf: string -> string)
    requires Good(w, d, tenantOf) && i in w.ingests && w.ingests[i].phase.Written?
    ensures !w.store.objects[KeyOfIngest(w.ingests[i])].status.FailedObject?
  {
    var k := KeyOfIngest(w.ingests[i]);
    assert IngestOk(w.ingests[i], w.store.objects, w.blobs, tenantOf) &&
           IngestDisciplined(w.ingests[i], w.store.objects, d);
    if w.store.objects[k].status.FailedObject? && d.Verdicts? {
      assert StatusDisciplined(k, w.store.objects[k], d);
      SameVerdicts(d, tenantOf, k, None, Some(w.ingests[i].phase.status));
    }
  }

  lemma ReservedKeepsGood(w: World, key: Key, o: ArtifactObject, next: World, d: Discipline, tenantOf: string -> string)
    requires Good(w, d, tenantOf) && GoodKey(key, tenantOf) && o.ResourceKey() == key && o.status.Pending?
    requires key in w.store.objects ==>
               w.store.objects[key].status.FailedObject? &&
               w.store.objects[key].sizeBytes == o.sizeBytes
    requires next.store.objects == w.store.objects[key := o] && next.blobs == w.blobs
    requires next.deletions == w.deletions && next.ingests == w.ingests
    ensures Good(next, d, tenantOf)
  {
    forall i | i in w.ingests && KeyOfIngest(w.ingests[i]) == key && key in w.store.objects
      ensures !w.ingests[i].phase.Written?
    {
      if w.ingests[i].phase.Written? {
        FailedHasNoWriter(w, i, d, tenantOf);
      }
    }
    MoveKeepsGood(w, key, o, next, d, tenantOf);
  }

  lemma ReserveKeepsGood(w: World, i: nat, obj: ArtifactObject, quota: ArtifactQuota, d: Discipline,
                         tenantOf: string -> string)
    requires Good(w, d, tenantOf) && Legal(w, Reserve(i, obj, quota), d, tenantOf)
    ensures Good(AfterReserve(w, i, obj, quota), d, tenantOf)
  {
    var key := obj.ResourceKey();
    var decision := DecideReserve(w.store, obj, quota);
    ReserveEffect(w.store, obj, quota);
    if decision.Commit? {
      var store := Do(w.store, ReserveArtifact(obj, quota));
      var o: ArtifactObject :| o.ResourceKey() == key && o.status.Pending? && o.sizeBytes == obj.sizeBytes &&
                               store.objects == w.store.objects[key := o];
      var reserved := w.(store := store);
      ReservedKeepsGood(w, key, o, reserved, d, tenantOf);
      NewIngestKeepsGood(reserved, i, obj, d, tenantOf);
    } else if decision.Keep? && !Final(w.store.objects[key].status) {
      NewIngestKeepsGood(w, i, obj, d, tenantOf);
    }
  }

  lemma NewIngestKeepsGood(w: World, i: nat, obj: ArtifactObject, d: Discipline, tenantOf: string -> string)
    requires Good(w, d, tenantOf) && i !in w.ingests && Reservable(obj.ResourceKey(), tenantOf)
    requires var key := obj.ResourceKey();
             key in w.store.objects && w.store.objects[key].sizeBytes == obj.sizeBytes &&
             (w.store.objects[key].status.Pending? || Going(w.store.objects[key].status))
    requires d.OneAtATime? ==> forall m :: m in w.ingests ==> KeyOfIngest(w.ingests[m]) != obj.ResourceKey()
    ensures Good(w.(ingests := w.ingests[i := Ingestion(obj, Scanning)]), d, tenantOf)
  {
    PhaseKeepsGood(w, i, Ingestion(obj, Scanning), d, tenantOf);
  }

  lemma FailKeepsGood(w: World, i: nat, code: string, now: Time, d: Discipline, tenantOf: string -> string)
    requires Good(w, d, tenantOf) && i in w.ingests
    requires w.ingests[i].phase.Undone? || (d.Verdicts? ==> None in d.allowed(KeyOfIngest(w.ingests[i])))
    ensures Good(w.(store := Do(w.store, FailArtifact(KeyOfIngest(w.ingests[i]), code, now)),
                    ingests := w.ingests - {i}), d, tenantOf)
  {
    var key := KeyOfIngest(w.ingests[i]);
    var store := Do(w.store, FailArtifact(key, code, now));
    assert IngestOk(w.ingests[i], w.store.objects, w.blobs, tenantOf);
    assert ObjectOk(key, w.store.objects[key], w.blobs, tenantOf);
    FailEffect(w.store, key, code, now);
    StoppingKeepsGood(w, w.ingests - {i}, w.deletions, d, tenantOf);
    var stopped := w.(ingests := w.ingests - {i});
    if store.objects == w.store.objects {
      SameObjectsKeepGood(stopped, store, d, tenantOf);
    } else {
      var o := w.store.objects[key].(status := FailedObject, failureCode := code, updatedAt := now);
      MoveKeepsGood(stopped, key, o, stopped.(store := store), d, tenantOf);
    }
  }

  lemma PutKeepsGood(w: World, i: nat, status: ObjectStatus, d: Discipline, tenantOf: string -> string)
    requires Good(w, d, tenantOf) && Legal(w, PutBlob(i, status), d, tenantOf)
    ensures Good(Next(w, PutBlob(i, status), d, tenantOf), d, tenantOf)
  {
    var g := w.ingests[i];
    var key := KeyOfIngest(g);
    assert IngestOk(g, w.store.objects, w.blobs, tenantOf) && IngestDisciplined(g, w.store.objects, d);
    assert ObjectOk(key, w.store.objects[key], w.blobs, tenantOf);
    BlobWrittenKeepsGood(w, key, d, tenantOf);
    PhaseKeepsGood(w.(blobs := w.blobs[StorageKey(key.id) := g.obj.sizeBytes]), i, g.(phase := Written(status)), d,
                   tenantOf);
  }

  lemma FinalizeKeepsGood(w: World, i: nat, mediaType: string, scan: ScanStatus, now: Time, d: Discipline,
                          tenantOf: string -> string)
    requires Good(w, d, tenantOf) && i in w.ingests && w.ingests[i].phase.Written?
    ensures Good(AfterFinalize(w, i, mediaType, scan, now), d, tenantOf)
  {
    var g := w.ingests[i];
    var key := KeyOfIngest(g);
    assert IngestOk(g, w.store.objects, w.blobs, tenantOf) && IngestDisciplined(g, w.store.objects, d);
    assert ObjectOk(key, w.store.objects[key], w.blobs, tenantOf) && StatusDisciplined(key, w.store.objects[key], d);
    FinalizeEffect(w.store, key, mediaType, scan, g.phase.status, now);
    var op := FinalizeArtifact(key, StorageKey(key.id), mediaType, scan, g.phase.status, now);
    var decision := DecideArtifact(w.store, op);
    if decision.Refuse? {
      FailedHasNoWriter(w, i, d, tenantOf);
      if Final(w.store.objects[key].status) && d.Verdicts? {
        SameVerdicts(d, tenantOf, key, Some(g.phase.status), Some(w.store.objects[key].status));
      }
      PhaseKeepsGood(w, i, g.(phase := Conflicted), d, tenantOf);
    } else {
      StoppingKeepsGood(w, w.ingests - {i}, w.deletions, d, tenantOf);
      if decision.Commit? {
        var stopped := w.(ingests := w.ingests - {i});
        var store := Do(w.store, op);
        MoveKeepsGood(stopped, key, store.objects[key], stopped.(store := store), d, tenantOf);
      }
    }
  }

  lemma UndoKeepsGood(w: World, i: nat, d: Discipline, tenantOf: string -> string)
    requires Good(w, d, tenantOf) && Legal(w, UndoBlob(i), d, tenantOf)
    ensures Good(Next(w, UndoBlob(i), d, tenantOf), d, tenantOf)
  {
    var g := w.ingests[i];
    var key := KeyOfIngest(g);
    assert IngestOk(g, w.store.objects, w.blobs, tenantOf) && IngestDisciplined(g, w.store.objects, d);
    BlobGoneKeepsGood(w, key, d, tenantOf);
    PhaseKeepsGood(w.(blobs := w.blobs - {StorageKey(key.id)}), i, g.(phase := Undone), d, tenantOf);
  }

  lemma ClaimKeepsGood(w: World, j: nat, key: Key, owner: string, now: Time, duration: int, d: Discipline,
                       tenantOf: string -> string)
    requires Good(w, d, tenantOf)
    ensures Good(AfterClaim(w, j, key, owner, now, duration), d, tenantOf)
  {
    var op := ClaimExpired(key, owner, now, duration);
    if DecideArtifact(w.store, op).Commit? {
      assert key in w.store.objects ==> ObjectOk(key, w.store.objects[key], w.blobs, tenantOf);
      ClaimEffect(w.store, key, owner, now, duration);
      assert StatusDisciplined(key, w.store.objects[key], d);
      var store := Do(w.store, op);
      MoveKeepsGood(w, key, store.objects[key], w.(store := store), d, tenantOf);
      assert DeletionOk(Deletion(key, w.store.objects[key].storageKey, false), store.objects);
    }
  }

  lemma DeleteKeepsGood(w: World, j: nat, d: Discipline, tenantOf: string -> string)
    requires Good(w, d, tenantOf) && Legal(w, DeleteBlob(j), d, tenantOf)
    ensures Good(Next(w, DeleteBlob(j), d, tenantOf), d, tenantOf)
  {
    var x := w.deletions[j];
    assert DeletionOk(x, w.store.objects);
    BlobGoneKeepsGood(w, x.key, d, tenantOf);
    var gone := w.(blobs := w.blobs - {x.storageKey});
    StoppingKeepsGood(gone, w.ingests, w.deletions[j := x.(blobDeleted := true)], d, tenantOf);
  }

  lemma CompleteKeepsGood(w: World, j: nat, owner: string, now: Time, d: Discipline, tenantOf: string -> string)
    requires Good(w, d, tenantOf) && Legal(w, Complete(j, owner, now), d, tenantOf)
    ensures Good(Next(w, Complete(j, owner, now), d, tenantOf), d, tenantOf)
  {
    var key := w.deletions[j].key;
    assert DeletionOk(w.deletions[j], w.store.objects);
    assert ObjectOk(key, w.store.objects[key], w.blobs, tenantOf) && StatusDisciplined(key, w.store.objects[key], d);
    CompleteEffect(w.store, key, owner, now);
    StoppingKeepsGood(w, w.ingests, w.deletions - {j}, d, tenantOf);
    var stopped := w.(deletions := w.deletions - {j});
    var store := Do(w.store, CompleteDeletion(key, owner, now));
    if store.objects == w.store.objects {
      SameObjectsKeepGood(stopped, store, d, tenantOf);
    } else {
      MoveKeepsGood(stopped, key, store.objects[key], stopped.(store := store), d, tenantOf);
    }
  }

  lemma NextKeepsGood(w: World, step: Step, d: Discipline, tenantOf: string -> string)
    requires Good(w, d, tenantOf) && Legal(w, step, d, tenantOf)
    ensures Good(Next(w, step, d, tenantOf), d, tenantOf)
  {
    match step
    case Reserve(i, obj, quota) => ReserveKeepsGood(w, i, obj, quota, d, tenantOf);
    case FailScan(i, code, now) => FailKeepsGood(w, i, code, now, d, tenantOf);
    case PutBlob(i, status) => PutKeepsGood(w, i, status, d, tenantOf);
    case Finalize(i, mediaType, scan, now) => FinalizeKeepsGood(w, i, mediaType, scan, now, d, tenantOf);
    case UndoBlob(i) => UndoKeepsGood(w, i, d, tenantOf);
    case GiveUp(i, now) => FailKeepsGood(w, i, "METADATA_FINALIZE_FAILED", now, d, tenantOf);
    case StopIngest(i) => StoppingKeepsGood(w, w.ingests - {i}, w.deletions, d, tenantOf);
    case Claim(j, key, owner, now, duration) => ClaimKeepsGood(w, j, key, owner, now, duration, d, tenantOf);
    case DeleteBlob(j) => DeleteKeepsGood(w, j, d, tenantOf);
    case Complete(j, owner, now) => CompleteKeepsGood(w, j, owner, now, d, tenantOf);
    case StopDeletion(j) => StoppingKeepsGood(w, w.ingests, w.deletions - {j}, d, tenantOf);
    case RenewOrRetry(op) => SameObjectsKeepGood(w, Do(w.store, op), d, tenantOf);
  }

  const START := World(EMPTY.artifacts, map[], map[], map[])

  /** Every world that legal steps lead to is good. */
  lemma ReachableIsGood(w: World, d: Discipline, tenantOf: string -> string)
    requires Safe(d, tenantOf) && Reaches(START, w, Steps(d, tenantOf))
    ensures Good(w, d, tenantOf)
  {
    forall a, step | Good(a, d, tenantOf) && Legal(a, step, d, tenantOf)
      ensures Good(Next(a, step, d, tenantOf), d, tenantOf)
    {
      NextKeepsGood(a, step, d, tenantOf);
    }
    ReachableKeeps(START, w, Steps(d, tenantOf), (a: World) => Good(a, d, tenantOf));
  }

  /** Every available or quarantined object has its blob, of its size, under its storage key. */
  ghost predicate AllServed(w: World) {
    forall k :: k in w.store.objects && Final(w.store.objects[k].status) ==>
      w.store.objects[k].storageKey == StorageKey(k.id) && HasBlob(w.blobs, w.store.objects[k])
  }

  /**
   Cross-store consistency: whatever ingests and lifecycle workers do, in any interleaving and stopping anywhere,
   every available or quarantined object has its blob, provided that ingests of one object do not overlap.
   */
  lemma AvailableObjectsHaveBlobs(w: World, tenantOf: string -> string)
    requires Reaches(START, w, Steps(OneAtATime, tenantOf))
    ensures AllServed(w)
  {
    ReachableIsGood(w, OneAtATime, tenantOf);
    GoodIsServed(w, OneAtATime, tenantOf);
  }

  lemma GoodIsServed(w: World, d: Discipline, tenantOf: string -> string)
    requires Good(w, d, tenantOf)
    ensures AllServed(w)
  {
    forall k | k in w.store.objects && Final(w.store.objects[k].status)
      ensures w.store.objects[k].storageKey == StorageKey(k.id) && HasBlob(w.blobs, w.store.objects[k])
    {
      assert ObjectOk(k, w.store.objects[k], w.blobs, tenantOf);
    }
  }
}
