/**
 The journal refines the memory: whatever the store has done, replaying its file gives the
 memory back, up to the two things the file does not carry.
 */
module JournalRefinement {
  import opened Wrappers
  import opened Model
  import opened Journal
  import opened JournalOps

  /** Equal except that the replayed objects have lost their storage keys. */
  ghost predicate SameButStorageKeys(replayed: map<Key, ArtifactObject>, mem: map<Key, ArtifactObject>) {
    replayed.Keys == mem.Keys && forall k :: k in mem ==> replayed[k] == Unkeyed(mem[k])
  }

  /** Equal except for revocations that had expired when memory was last pruned. */
  ghost predicate SameButExpired(replayed: Revocations, mem: Revocations, pruned: Time) {
    (forall k :: k in mem ==> k in replayed && replayed[k] == mem[k]) &&
    (forall k :: k in replayed && k !in mem ==> replayed[k].expiresAt <= pruned)
  }

  ghost predicate Refines(replayed: State, mem: State, pruned: Time) {
    replayed.agents == mem.agents && replayed.work == mem.work && replayed.leases == mem.leases &&
    replayed.inbox == mem.inbox && replayed.outbox == mem.outbox && replayed.flows == mem.flows &&
    replayed.controls == mem.controls &&
    replayed.artifacts.usage == mem.artifacts.usage && replayed.artifacts.leases == mem.artifacts.leases &&
    SameButStorageKeys(replayed.artifacts.objects, mem.artifacts.objects) &&
    SameButExpired(replayed.revocations, mem.revocations, pruned)
  }

  lemma ObjectRefines(replayed: map<Key, ArtifactObject>, mem: map<Key, ArtifactObject>, obj: ArtifactObject)
    requires SameButStorageKeys(replayed, mem)
    ensures SameButStorageKeys(replayed[obj.ResourceKey() := Unkeyed(obj)], mem[obj.ResourceKey() := obj])
  {
  }

  lemma RevocationRefines(replayed: Revocations, mem: Revocations, pruned: Time, r: TokenRevocation)
    requires SameButExpired(replayed, mem, pruned)
    ensures SameButExpired(replayed[RevocationKeyOf(r) := r], mem[RevocationKeyOf(r) := r], pruned)
  {
  }

  lemma ArtifactRecordRefines(replayed: State, mem: State, pruned: Time, r: Record)
    requires Refines(replayed, mem, pruned) && r.ArtifactRecord?
    ensures Refines(Apply(replayed, Encode(r)), Apply(mem, r), pruned)
  {
    if r.obj.Some? {
      var stored := Unkeyed(r.obj.value);
      ObjectRefines(replayed.artifacts.objects, mem.artifacts.objects, r.obj.value);
      assert Encode(r) == r.(obj := Some(stored));
      assert stored.ResourceKey() == r.obj.value.ResourceKey();
    }
  }

  lemma OtherRecordRefines(replayed: State, mem: State, pruned: Time, r: Record)
    requires Refines(replayed, mem, pruned) && !r.ArtifactRecord? && !r.RevocationRecord?
    ensures Refines(Apply(replayed, r), Apply(mem, r), pruned)
  {
    ApplyByParts(replayed, r);
    ApplyByParts(mem, r);
  }

  lemma ApplyRefines(replayed: State, mem: State, pruned: Time, r: Record)
    requires Refines(replayed, mem, pruned)
    ensures Refines(Apply(replayed, Encode(r)), Apply(mem, r), pruned)
  {
    if r.ArtifactRecord? {
      ArtifactRecordRefines(replayed, mem, pruned, r);
    } else if r.RevocationRecord? {
      RevocationRefines(replayed.revocations, mem.revocations, pruned, r.revocation);
    } else {
      assert Encode(r) == r;
      OtherRecordRefines(replayed, mem, pruned, r);
    }
  }

  lemma ExecRefines(sys: System, op: Op)
    requires Refines(Replay(sys.file), sys.mem, sys.pruned)
    ensures var next := Exec(sys, op); Refines(Replay(next.file), next.mem, next.pruned)
  {
    if !op.Reopen? && !op.PruneRevocations? && Decide(sys.mem, op).Commit? {
      var r := Decide(sys.mem, op).record;
      ReplayAppend(sys.file, Encode(r));
      ApplyRefines(Replay(sys.file), sys.mem, sys.pruned, r);
    }
  }

  /** Journal refinement: at every point of every run, reopenings included. */
  lemma {:induction false} ReplayRestoresMemory(ops: seq<Op>)
    ensures var sys := Run(INITIAL, ops); Refines(Replay(sys.file), sys.mem, sys.pruned)
  {
    if ops != [] {
      ReplayRestoresMemory(ops[..|ops| - 1]);
      ExecRefines(Run(INITIAL, ops[..|ops| - 1]), ops[|ops| - 1]);
    }
  }

  /** Pruning loses nothing that authentication can see from then on. */
  lemma RevocationsSurviveReplay(ops: seq<Op>, key: RevocationKey, now: Time)
    requires now >= Run(INITIAL, ops).pruned
    ensures TokenRevoked(Replay(Run(INITIAL, ops).file).revocations, key, now) ==
            TokenRevoked(Run(INITIAL, ops).mem.revocations, key, now)
  {
    ReplayRestoresMemory(ops);
  }

  /** The file is append-only: a copy taken at any moment is a prefix of every later file. */
  lemma {:induction false} FileIsAppendOnly(sys: System, more: seq<Op>)
    ensures sys.file <= Run(sys, more).file
  {
    if more != [] {
      FileIsAppendOnly(sys, more[..|more| - 1]);
    }
  }

  /** The states a run passes through. */
  ghost predicate Passes(sys: System, ops: seq<Op>, trail: seq<System>) {
    |trail| == |ops| + 1 && trail[0] == sys && forall i :: 0 <= i < |ops| ==> trail[i + 1] == Exec(trail[i], ops[i])
  }

  lemma {:induction false} RunTrail(sys: System, ops: seq<Op>) returns (trail: seq<System>)
    ensures Passes(sys, ops, trail) && trail[|ops|] == Run(sys, ops)
  {
    if ops == [] {
      trail := [sys];
    } else {
      var n := |ops| - 1;
      var earlier := RunTrail(sys, ops[..n]);
      trail := earlier + [Exec(earlier[n], ops[n])];
      forall i | 0 <= i < |ops| ensures trail[i + 1] == Exec(trail[i], ops[i]) {
        assert i < n ==> ops[..n][i] == ops[i];
      }
    }
  }

  lemma {:induction false} RunConcat(sys: System, first: seq<Op>, second: seq<Op>)
    ensures Run(sys, first + second) == Run(Run(sys, first), second)
  {
    if second == [] {
      assert first + second == first;
    } else {
      var n := |second| - 1;
      assert (first + second)[..|first + second| - 1] == first + second[..n];
      RunConcat(sys, first, second[..n]);
    }
  }

  /**
   A backup taken between two parts of a run replays to the state at the backup, whatever ran
   afterwards: the later file still starts with it.
   */
  lemma BackupReplaysToItsMoment(before: seq<Op>, later: seq<Op>)
    ensures var backup := Run(INITIAL, before);
            var final := Run(INITIAL, before + later);
            backup.file <= final.file &&
            Refines(Replay(final.file[..|backup.file|]), backup.mem, backup.pruned)
  {
    RunConcat(INITIAL, before, later);
    FileIsAppendOnly(Run(INITIAL, before), later);
    ReplayRestoresMemory(before);
    var backup := Run(INITIAL, before).file;
    var final := Run(INITIAL, before + later).file;
    assert final[..|backup|] == backup;
  }

  /**
   What a restart keeps of the artifact metadata: an object comes back unchanged exactly when it
   had no storage key, so every finalised object loses the key its bytes are stored under.
   */
  lemma RestartKeepsObjectIffUnkeyed(ops: seq<Op>, k: Key)
    requires k in Run(INITIAL, ops).mem.artifacts.objects
    ensures var before := Run(INITIAL, ops).mem.artifacts.objects;
            var after := Run(INITIAL, ops + [Reopen]).mem.artifacts.objects;
            k in after && (after[k] == before[k] <==> before[k].storageKey == "")
  {
    ReplayRestoresMemory(ops);
    RunAppend(INITIAL, ops, Reopen);
  }
}
