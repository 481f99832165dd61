/**
 The status of outbox items over every run of the store (internal/core/store.go, outbox operations).
 */
module OutboxMachine {
  import opened Wrappers
  import opened Model
  import opened Journal
  import opened JournalOps
  import opened JournalRefinement

  /** A held item is open; ACKED and DEAD_LETTERED exclude each other; PURGED follows one of them. */
  ghost predicate Consistent(s: OutboxState) {
    (s.lease.owner != "" ==> !s.acked && !s.deadLettered && !s.purged) &&
    !(s.acked && s.deadLettered) &&
    (s.purged ==> s.acked || s.deadLettered)
  }

  ghost predicate OutboxInvariant(o: OutboxStore) {
    forall id :: id in o.states ==> Consistent(o.states[id])
  }

  /** Every outbox acknowledgement and renewal names the owner of its lease. */
  ghost predicate NamedLeases(ops: seq<Op>) {
    forall i :: 0 <= i < |ops| && ops[i].OutboxCall? ==> Named(ops[i].outbox)
  }

  predicate Named(op: OutboxOp) {
    op.AckOutbox? || op.RenewOutbox? ==> op.owner != ""
  }

  lemma OutboxOpKeepsInvariant(o: OutboxStore, op: OutboxOp)
    requires OutboxInvariant(o) && DecideOutbox(o, op).Commit?
    requires Named(op)
    ensures OutboxInvariant(OutboxAfter(o, DecideOutbox(o, op).record))
  {
  }

  lemma ExecKeepsOutbox(sys: System, op: Op)
    requires OutboxInvariant(sys.mem.outbox) && NamedLeases([op])
    requires Refines(Replay(sys.file), sys.mem, sys.pruned)
    ensures OutboxInvariant(Exec(sys, op).mem.outbox)
  {
    assert [op][0] == op;
    OutboxAfterExec(sys, op);
    if op.OutboxCall? && DecideOutbox(sys.mem.outbox, op.outbox).Commit? {
      OutboxOpKeepsInvariant(sys.mem.outbox, op.outbox);
    }
  }

  lemma {:induction false} OutboxAlwaysConsistent(ops: seq<Op>)
    requires NamedLeases(ops)
    ensures OutboxInvariant(Run(INITIAL, ops).mem.outbox)
  {
    if ops != [] {
      var earlier := ops[..|ops| - 1];
      OutboxAlwaysConsistent(earlier);
      ReplayRestoresMemory(earlier);
      ExecKeepsOutbox(Run(INITIAL, earlier), ops[|ops| - 1]);
    }
  }

  /**
   Exactly when an acknowledgement spoils the exclusion: the item is a dead letter. The store accepts
   that only from a lease without an owner, because a dead letter is held by nobody.
   */
  lemma AckKeepsExclusionIffNotDeadLettered(o: OutboxStore, id: string, owner: string, now: Time)
    requires OutboxInvariant(o) && DecideOutbox(o, AckOutbox(id, owner, now)).Commit?
    ensures OutboxInvariant(OutboxAfter(o, DecideOutbox(o, AckOutbox(id, owner, now)).record))
            <==> !o.states[id].deadLettered
    ensures o.states[id].deadLettered ==> owner == ""
  {
    var after := OutboxAfter(o, DecideOutbox(o, AckOutbox(id, owner, now)).record);
    assert after.states[id].acked;
    if o.states[id].deadLettered {
      assert !Consistent(after.states[id]);
    }
  }

  // The state that an acknowledgement without an owner reaches

  function Next(o: OutboxStore, op: OutboxOp): OutboxStore {
    var d := DecideOutbox(o, op);
    if d.Commit? then OutboxAfter(o, d.record) else o
  }

  lemma RunNext(ops: seq<Op>, op: OutboxOp)
    ensures Run(INITIAL, ops + [OutboxCall(op)]).mem.outbox == Next(Run(INITIAL, ops).mem.outbox, op)
  {
    RunAppend(INITIAL, ops, OutboxCall(op));
    OutboxAfterExec(Run(INITIAL, ops), OutboxCall(op));
  }

  predicate Complete(item: OutboxItem) {
    item.id != "" && item.tenantId != "" && item.taskId != "" && item.dedupKey != "" && item.topic != ""
  }

  /** An item enqueued, claimed and dead-lettered is held by nobody. */
  lemma BuriedIsUnheld(item: OutboxItem, owner: string, now: Time, reason: string)
    requires Complete(item) && owner != "" && now >= ZERO_TIME
    ensures var claimed := Next(Next(EMPTY.outbox, EnqueueOutbox(item)), ClaimOutbox(item.id, owner, now, 1));
            var o := Next(claimed, DeadLetterOutbox(item.id, owner, reason, now));
            item.id in o.states && o.states[item.id].deadLettered &&
            o.states[item.id].lease.owner == "" && !o.states[item.id].acked
  {
    var queued := Next(EMPTY.outbox, EnqueueOutbox(item));
    assert item.id in queued.items && item.id !in queued.states;
    var claimed := Next(queued, ClaimOutbox(item.id, owner, now, 1));
    assert item.id in claimed.states && claimed.states[item.id].lease.owner == owner;
  }

  lemma RunThree(a: OutboxOp, b: OutboxOp, c: OutboxOp) returns (ops: seq<Op>)
    ensures ops == [OutboxCall(a), OutboxCall(b), OutboxCall(c)]
    ensures Run(INITIAL, ops).mem.outbox == Next(Next(Next(EMPTY.outbox, a), b), c)
  {
    var first, second := [OutboxCall(a)], [OutboxCall(a), OutboxCall(b)];
    RunNext([], a);
    RunNext(first, b);
    RunNext(second, c);
    assert [] + first == first && first + [OutboxCall(b)] == second;
    ops := second + [OutboxCall(c)];
  }

  lemma UnnamedAckAccepted(o: OutboxStore, id: string, now: Time)
    requires id in o.states && o.states[id].deadLettered && o.states[id].lease.owner == "" && !o.states[id].acked
    ensures var after := Next(o, AckOutbox(id, "", now));
            id in after.states && after.states[id].acked && after.states[id].deadLettered && !OutboxInvariant(after)
  {
    assert !Consistent(Next(o, AckOutbox(id, "", now)).states[id]);
  }

  /**
   A run of calls by named owners makes an item a dead letter; the store then accepts an acknowledgement that
   names no owner, and the item is both ACKED and DEAD_LETTERED.
   */
  lemma UnnamedAckSpoilsDeadLetter(item: OutboxItem, owner: string, now: Time, reason: string) returns (ops: seq<Op>)
    requires Complete(item) && owner != "" && now >= ZERO_TIME
    ensures NamedLeases(ops)
    ensures var o := Run(INITIAL, ops + [OutboxCall(AckOutbox(item.id, "", now))]).mem.outbox;
            item.id in o.states && o.states[item.id].acked && o.states[item.id].deadLettered && !OutboxInvariant(o)
  {
    BuriedIsUnheld(item, owner, now, reason);
    ops := RunThree(EnqueueOutbox(item), ClaimOutbox(item.id, owner, now, 1),
                    DeadLetterOutbox(item.id, owner, reason, now));
    UnnamedAckAccepted(Run(INITIAL, ops).mem.outbox, item.id, now);
    RunNext(ops, AckOutbox(item.id, "", now));
  }

  lemma OutboxOpKeepsPurged(o: OutboxStore, op: OutboxOp, id: string)
    requires OutboxInvariant(o) && DecideOutbox(o, op).Commit?
    requires Named(op)
    requires id in o.states && o.states[id].purged
    ensures OutboxAfter(o, DecideOutbox(o, op).record).states[id] == o.states[id]
  {
  }

  /** One operation of a run, seen by a purged item. */
  lemma ExecKeepsPurged(sys: System, op: Op, id: string)
    requires OutboxInvariant(sys.mem.outbox) && Refines(Replay(sys.file), sys.mem, sys.pruned)
    requires op.OutboxCall? ==> Named(op.outbox)
    requires id in sys.mem.outbox.states && sys.mem.outbox.states[id].purged
    ensures var o := Exec(sys, op).mem.outbox; id in o.states && o.states[id] == sys.mem.outbox.states[id]
  {
    OutboxAfterExec(sys, op);
    if op.OutboxCall? && DecideOutbox(sys.mem.outbox, op.outbox).Commit? {
      OutboxOpKeepsPurged(sys.mem.outbox, op.outbox, id);
    }
  }

  lemma NamedPrefix(ops: seq<Op>, n: nat)
    requires NamedLeases(ops) && n <= |ops|
    ensures NamedLeases(ops[..n])
  {
  }

  /** PURGED is absorbing: whatever runs later, the item's state never changes again. */
  lemma {:induction false} PurgedIsAbsorbing(ops: seq<Op>, more: seq<Op>, id: string)
    requires NamedLeases(ops + more)
    requires var o := Run(INITIAL, ops).mem.outbox; id in o.states && o.states[id].purged
    ensures var o := Run(INITIAL, ops + more).mem.outbox;
            id in o.states && o.states[id] == Run(INITIAL, ops).mem.outbox.states[id]
  {
    if more == [] {
      assert ops + more == ops;
    } else {
      var n := |more| - 1;
      var earlier, op := ops + more[..n], more[n];
      assert ops + more == earlier + [op];
      assert (ops + more)[..|earlier|] == earlier;
      NamedPrefix(ops + more, |earlier|);
      PurgedIsAbsorbing(ops, more[..n], id);
      OutboxAlwaysConsistent(earlier);
      ReplayRestoresMemory(earlier);
      assert (ops + more)[|earlier|] == op;
      ExecKeepsPurged(Run(INITIAL, earlier), op, id);
      RunAppend(INITIAL, earlier, op);
    }
  }
}
