/**
 Overlapping ingests of one object (internal/artifact/service.go, Ingest): exactly when they are harmless. Two runs
 show how a second verdict loses the bytes of an object that stays available.
 */
module ArtifactRaces {
  import opened Wrappers
  import opened Model
  import opened Journal
  import opened JournalOps
  import opened ArtifactIngest
  import opened Worlds

  const NO_LIMIT := ArtifactQuota(0, 0)

  /** An empty object that can be reserved under the key. */
  function Sample(k: Key): ArtifactObject {
    ArtifactObject(k.id, k.tenant, "task", "artifact", 0, "", "digest", 0, "", Pending, NotScanned, 0, 0, 1, None, "")
  }

  /** The sample stands in the store with this status, and its reservation is accounted for. */
  ghost predicate Holding(w: World, k: Key, status: ObjectStatus) {
    k in w.store.objects && w.store.objects[k].ResourceKey() == k && SameIdentity(w.store.objects[k], Sample(k)) &&
    w.store.objects[k].status == status &&
    (status.Pending? ==> UsageOf(w.store, k.tenant).bytes >= 0 && UsageOf(w.store, k.tenant).objects >= 1) &&
    (status.FailedObject? ==> UsageOf(w.store, k.tenant).bytes >= 0 && UsageOf(w.store, k.tenant).objects >= 0)
  }

  /** The worlds that ingests with these verdicts can reach. */
  ghost predicate Arises(w: World, allowed: Key -> set<Option<ObjectStatus>>, tenantOf: string -> string) {
    Reaches(START, w, Steps(Verdicts(allowed), tenantOf))
  }

  ghost predicate At(w: World, i: nat, k: Key, phase: Phase) {
    i in w.ingests && w.ingests[i] == Ingestion(Sample(k), phase)
  }

  lemma Took(w: World, step: Step, allowed: Key -> set<Option<ObjectStatus>>, tenantOf: string -> string)
    returns (v: World)
    requires Arises(w, allowed, tenantOf) && Legal(w, step, Verdicts(allowed), tenantOf)
    ensures Arises(v, allowed, tenantOf) && v == Next(w, step, Verdicts(allowed), tenantOf)
  {
    v := Next(w, step, Verdicts(allowed), tenantOf);
    StepReaches(START, w, step, v, Steps(Verdicts(allowed), tenantOf));
  }

  lemma ReserveNext(w: World, i: nat, k: Key, allowed: Key -> set<Option<ObjectStatus>>, tenantOf: string -> string)
    returns (v: World)
    requires Arises(w, allowed, tenantOf) && Reservable(k, tenantOf) && i !in w.ingests
    requires Holding(w, k, Pending) || Holding(w, k, FailedObject) ||
             (k !in w.store.objects && w.store.usage == map[])
    ensures Arises(v, allowed, tenantOf) && Holding(v, k, Pending) && v.blobs == w.blobs
    ensures v.ingests == w.ingests[i := Ingestion(Sample(k), Scanning)]
  {
    ReserveEffect(w.store, Sample(k), NO_LIMIT);
    v := Took(w, Reserve(i, Sample(k), NO_LIMIT), allowed, tenantOf);
  }

  lemma PutNext(w: World, i: nat, k: Key, status: ObjectStatus, allowed: Key -> set<Option<ObjectStatus>>,
                tenantOf: string -> string) returns (v: World)
    requires Arises(w, allowed, tenantOf) && At(w, i, k, Scanning) && Final(status) && Some(status) in allowed(k)
    ensures Arises(v, allowed, tenantOf) && v.store == w.store
    ensures v.ingests == w.ingests[i := Ingestion(Sample(k), Written(status))]
  {
    v := Took(w, PutBlob(i, status), allowed, tenantOf);
  }

  /** The first to finalise settles the status. */
  lemma FinalizeNext(w: World, i: nat, k: Key, status: ObjectStatus, allowed: Key -> set<Option<ObjectStatus>>,
                     tenantOf: string -> string) returns (v: World)
    requires Arises(w, allowed, tenantOf) && At(w, i, k, Written(status)) && Final(status) && Holding(w, k, Pending)
    ensures Arises(v, allowed, tenantOf) && Holding(v, k, status) && v.ingests == w.ingests - {i}
  {
    FinalizeEffect(w.store, k, "", Clean, status, 1);
    v := Took(w, Finalize(i, "", Clean, 1), allowed, tenantOf);
  }

  /** Whoever comes later with another status meets a conflict. */
  lemma ConflictNext(w: World, i: nat, k: Key, status: ObjectStatus, held: ObjectStatus,
                     allowed: Key -> set<Option<ObjectStatus>>, tenantOf: string -> string) returns (v: World)
    requires Arises(w, allowed, tenantOf) && At(w, i, k, Written(status)) && Final(status)
    requires Holding(w, k, held) && held != status && !held.Pending?
    ensures Arises(v, allowed, tenantOf) && v.store == w.store
    ensures v.ingests == w.ingests[i := Ingestion(Sample(k), Conflicted)]
  {
    FinalizeEffect(w.store, k, "", Clean, status, 1);
    v := Took(w, Finalize(i, "", Clean, 1), allowed, tenantOf);
  }

  lemma FailNext(w: World, i: nat, k: Key, allowed: Key -> set<Option<ObjectStatus>>, tenantOf: string -> string)
    returns (v: World)
    requires Arises(w, allowed, tenantOf) && At(w, i, k, Scanning) && Holding(w, k, Pending) && None in allowed(k)
    ensures Arises(v, allowed, tenantOf) && Holding(v, k, FailedObject) && v.ingests == w.ingests - {i}
  {
    v := Took(w, FailScan(i, "SCAN_FAILED", 1), allowed, tenantOf);
  }

  /** The loser deletes the blob, although the object is there to stay. */
  lemma UndoNext(w: World, i: nat, k: Key, status: ObjectStatus, allowed: Key -> set<Option<ObjectStatus>>,
                 tenantOf: string -> string) returns (v: World)
    requires Arises(w, allowed, tenantOf) && At(w, i, k, Conflicted) && Holding(w, k, status) && Final(status)
    ensures Arises(v, allowed, tenantOf) && !AllServed(v)
  {
    v := Took(w, UndoBlob(i), allowed, tenantOf);
    assert StorageKey(k.id) !in v.blobs;
  }

  /** Two scans that pass with different statuses: the second to finalise deletes the blob of the first. */
  lemma TwoStatusesLoseTheBlob(k: Key, a: ObjectStatus, b: ObjectStatus, allowed: Key -> set<Option<ObjectStatus>>,
                               tenantOf: string -> string) returns (w: World)
    requires Reservable(k, tenantOf) && Final(a) && Final(b) && a != b && Some(a) in allowed(k) && Some(b) in allowed(k)
    ensures Arises(w, allowed, tenantOf) && !AllServed(w)
  {
    ReachesItself(START, Steps(Verdicts(allowed), tenantOf));
    var w1 := ReserveNext(START, 0, k, allowed, tenantOf);
    var w2 := ReserveNext(w1, 1, k, allowed, tenantOf);
    var w3 := PutNext(w2, 0, k, a, allowed, tenantOf);
    var w4 := FinalizeNext(w3, 0, k, a, allowed, tenantOf);
    var w5 := PutNext(w4, 1, k, b, allowed, tenantOf);
    var w6 := ConflictNext(w5, 1, k, b, a, allowed, tenantOf);
    w := UndoNext(w6, 1, k, a, allowed, tenantOf);
  }

  /**
   A scan that passes beside one that fails: the passing ingest meets the failed object, a third reserves it again
   and finalises it, and only then does the first delete the blob.
   */
  lemma FailureLosesTheBlob(k: Key, a: ObjectStatus, allowed: Key -> set<Option<ObjectStatus>>,
                            tenantOf: string -> string)
    returns (w: World)
    requires Reservable(k, tenantOf) && Final(a) && Some(a) in allowed(k) && None in allowed(k)
    ensures Arises(w, allowed, tenantOf) && !AllServed(w)
  {
    ReachesItself(START, Steps(Verdicts(allowed), tenantOf));
    var w1 := ReserveNext(START, 0, k, allowed, tenantOf);
    var w2 := ReserveNext(w1, 1, k, allowed, tenantOf);
    var w3 := PutNext(w2, 0, k, a, allowed, tenantOf);
    var w4 := FailNext(w3, 1, k, allowed, tenantOf);
    var w5 := ConflictNext(w4, 0, k, a, FailedObject, allowed, tenantOf);
    var w6 := ReserveNext(w5, 2, k, allowed, tenantOf);
    var w7 := PutNext(w6, 2, k, a, allowed, tenantOf);
    var w8 := FinalizeNext(w7, 2, k, a, allowed, tenantOf);
    w := UndoNext(w8, 0, k, a, allowed, tenantOf);
  }

  /**
   Exactly when overlapping ingests are harmless: in every world that ingests can reach, each of which meets some
   verdict allowed for its object, every available object has its blob, if and only if no object that can be
   reserved has two different verdicts.
   */
  lemma OverlapsHarmlessIffOneVerdictEach(allowed: Key -> set<Option<ObjectStatus>>, tenantOf: string -> string)
    ensures (forall w :: Arises(w, allowed, tenantOf) ==> AllServed(w)) <==> OneVerdictEach(allowed, tenantOf)
  {
    if OneVerdictEach(allowed, tenantOf) {
      forall w | Arises(w, allowed, tenantOf) ensures AllServed(w) {
        ReachableIsGood(w, Verdicts(allowed), tenantOf);
        GoodIsServed(w, Verdicts(allowed), tenantOf);
      }
    } else {
      var k, a, b :| Reservable(k, tenantOf) && a in allowed(k) && b in allowed(k) && Possible(a) && Possible(b) &&
        a != b;
      var w;
      if a.None? {
        w := FailureLosesTheBlob(k, b.value, allowed, tenantOf);
      } else if b.None? {
        w := FailureLosesTheBlob(k, a.value, allowed, tenantOf);
      } else {
        w := TwoStatusesLoseTheBlob(k, a.value, b.value, allowed, tenantOf);
      }
      assert Arises(w, allowed, tenantOf) && !AllServed(w);
    }
  }
}
