/**
 Outbox delivery (internal/worker/outbox.go) to the idempotent file sink (internal/worker/file_outbox.go): what is
 on disk for an acknowledged item, with any number of workers, which may overlap on one item once a lease has
 expired, and with failed writes and crashes anywhere.
 */
module OutboxDelivery {
  import opened Wrappers
  import opened Model
  import opened Journal
  import opened JournalOps
  import opened JournalRefinement
  import opened LineLimits
  import opened Worlds
  import EventLog

  // The sink

  /** A line of the sink's file: an item, or something that is not one. */
  datatype Line = ItemLine(item: OutboxItem) | OtherLine(bytes: string)

  /** The sink's idempotency key. */
  function SinkKey(item: OutboxItem): string {
    item.tenantId + ":" + item.dedupKey
  }

  predicate Named(item: OutboxItem) {
    item.tenantId != "" && item.dedupKey != ""
  }

  /** The keys that reopening the file recovers. */
  function KeysOn(file: seq<Line>): set<string> {
    set l | l in file && l.ItemLine? && Named(l.item) :: SinkKey(l.item)
  }

  /** The key is on disk exactly once. */
  ghost predicate OnceOn(file: seq<Line>, key: string) {
    exists i :: 0 <= i < |file| && file[i].ItemLine? && SinkKey(file[i].item) == key &&
                forall j :: 0 <= j < |file| && file[j].ItemLine? && SinkKey(file[j].item) == key ==> j == i
  }

  ghost predicate NoKeyTwice(file: seq<Line>) {
    forall i, j :: 0 <= i < j < |file| && file[i].ItemLine? && file[j].ItemLine? ==>
      SinkKey(file[i].item) != SinkKey(file[j].item)
  }

  ghost predicate AllNamed(file: seq<Line>) {
    forall l :: l in file && l.ItemLine? ==> Named(l.item)
  }

  datatype Sink = Sink(file: seq<Line>, seen: set<string>)

  /** Publishing an item whose write, if one is needed, succeeds or fails as a whole. */
  function Publish(s: Sink, item: OutboxItem, writes: bool): (Sink, bool) {
    if SinkKey(item) in s.seen then (s, true)
    else if !writes then (s, false)
    else (Sink(s.file + [ItemLine(item)], s.seen + {SinkKey(item)}), true)
  }

  ghost predicate SinkOk(s: Sink) {
    s.seen == KeysOn(s.file) && NoKeyTwice(s.file) && AllNamed(s.file)
  }

  lemma PublishKeepsSink(s: Sink, item: OutboxItem, writes: bool)
    requires SinkOk(s) && Named(item)
    ensures var (after, ok) := Publish(s, item, writes);
            SinkOk(after) && s.file <= after.file && (ok ==> SinkKey(item) in KeysOn(after.file)) &&
            (after.file == s.file || after.file == s.file + [ItemLine(item)])
  {
    var (after, ok) := Publish(s, item, writes);
    if after != s {
      OneMoreKey(s.file, ItemLine(item));
      forall i | 0 <= i < |s.file| && s.file[i].ItemLine? ensures SinkKey(s.file[i].item) != SinkKey(item) {
        assert s.file[i] in s.file;
      }
    }
  }

  lemma OneMoreKey(file: seq<Line>, line: Line)
    ensures KeysOn(file + [line]) ==
            KeysOn(file) + if line.ItemLine? && Named(line.item) then {SinkKey(line.item)} else {}
  {
    var after := file + [line];
    assert after[|file|] == line;
    assert forall l :: l in after <==> l in file || l == line;
  }

  lemma KeyOnIsOnce(file: seq<Line>, key: string)
    requires NoKeyTwice(file) && key in KeysOn(file)
    ensures OnceOn(file, key)
  {
    var l :| l in file && l.ItemLine? && SinkKey(l.item) == key;
    var i :| 0 <= i < |file| && file[i] == l;
  }

  class FileOutboxPublisher {
    var file: seq<Line>
    var seen: set<string>
    var closed: bool

    ghost function Value(): Sink
      reads this
    {
      Sink(file, seen)
    }

    /** A sink over an existing file, before anything of it is read. */
    constructor (file: seq<Line>)
      ensures Value() == Sink(file, {}) && !closed
    {
      this.file, seen, closed := file, {}, false;
    }

    /** Recovers the keys that are on the file, up to the first line that is too long. */
    method Recover(size: Line -> nat) returns (ok: bool)
      requires seen == {}
      modifies `seen
      ensures ok <==> Readable(file, size, SINK_LINE)
      ensures ok ==> seen == KeysOn(file)
    {
      var i := 0;
      while i < |file|
        invariant 0 <= i <= |file| && seen == KeysOn(file[..i]) && Readable(file[..i], size, SINK_LINE)
      {
        if size(file[i]) > SINK_LINE {
          return false;
        }
        RecoverOne(file[..i], file[i]);
        assert file[..i + 1] == file[..i] + [file[i]];
        i := i + 1;
      }
      assert file[..i] == file;
      return true;
    }

    method RecoverOne(ghost before: seq<Line>, line: Line)
      requires seen == KeysOn(before)
      modifies `seen
      ensures seen == KeysOn(before + [line])
    {
      OneMoreKey(before, line);
      match line {
        case ItemLine(item) =>
          if item.tenantId != "" && item.dedupKey != "" {
            seen := seen + {item.tenantId + ":" + item.dedupKey};
          }
        case OtherLine(_) =>
      }
    }

    method PublishItem(item: OutboxItem, writes: bool) returns (ok: bool)
      modifies this
      ensures closed == old(closed)
      ensures if closed then Value() == old(Value()) && !ok else (Value(), ok) == Publish(old(Value()), item, writes)
    {
      if closed {
        return false;
      }
      var key := item.tenantId + ":" + item.dedupKey;
      if key in seen {
        return true;
      }
      if !writes {
        return false;
      }
      file := file + [ItemLine(item)];
      seen := seen + {key};
      return true;
    }

    method Close()
      modifies this
      ensures closed && Value() == old(Value())
    {
      closed := true;
    }
  }

  /** Opens the sink: fails exactly if some line on the file is longer than the reader's buffer. */
  method OpenSink(file: seq<Line>, size: Line -> nat) returns (r: Option<FileOutboxPublisher>)
    ensures r.Some? <==> Readable(file, size, SINK_LINE)
    ensures r.Some? ==> fresh(r.value) && r.value.Value() == Sink(file, KeysOn(file)) && !r.value.closed
  {
    var sink := new FileOutboxPublisher(file);
    var ok := sink.Recover(size);
    return if ok then Some(sink) else None;
  }

  // The world of store, sink and workers

  /** A worker with an item in hand. Several may have the same one: an expired lease is claimed again. */
  datatype Hand = Hand(worker: string, item: string)

  /**
   `held` is the attempt of the lease a worker was given; `published` are the hands whose publication succeeded;
   `told` are the items whose publication was ever reported as a success.
   */
  datatype World = World(sys: System, sink: Sink, held: map<Hand, nat>, published: set<Hand>, told: set<string>)

  datatype WorldStep =
    | Client(op: Op)                                   // any other caller of the store
    | Claim(hand: Hand, now: Time, duration: int)      // a worker claims an item
    | TryPublish(hand: Hand, writes: bool)             // and publishes it
    | Ack(hand: Hand, now: Time)                       // and acknowledges it
    | DeadLetter(hand: Hand, reason: string, now: Time)
    | Crash                                            // all stops; the journal and the sink are reopened

  ghost predicate Legal(w: World, step: WorldStep, maxAttempts: nat) {
    match step
    case Client(op) =>
      EventLog.Admissible(w.sys.mem, op) && NamesItem(w.sys.mem, op) &&
      (op.OutboxCall? ==> !op.outbox.AckOutbox? && !op.outbox.DeadLetterOutbox?)
    case Claim(_, _, _) => true
    case TryPublish(h, _) => h in w.held && h.item in w.sys.mem.outbox.items
    case Ack(h, _) => h in w.published
    case DeadLetter(h, _, _) => h in w.held && h !in w.published && 0 < maxAttempts <= w.held[h]
    case Crash => true
  }

  /** A Task that gets an event belongs to a tenant with a name. */
  ghost predicate NamesItem(m: State, op: Op) {
    (op.CreateTask? ==> op.task.tenantId != "") &&
    (op.ApplyTask? && op.key in m.work.tasks && op.mutate(m.work.tasks[op.key]).Some? ==>
       op.mutate(m.work.tasks[op.key]).value.0.tenantId != "")
  }

  function ClaimedAttempt(o: OutboxStore, id: string): nat {
    Get(o.states, id, NO_OUTBOX_STATE).lease.attempt + 1
  }

  ghost function OpOf(step: WorldStep): Option<Op> {
    match step
    case Client(op) => Some(op)
    case Claim(h, now, duration) => Some(OutboxCall(ClaimOutbox(h.item, h.worker, now, duration)))
    case TryPublish(_, _) => None
    case Ack(h, now) => Some(OutboxCall(AckOutbox(h.item, h.worker, now)))
    case DeadLetter(h, reason, now) => Some(OutboxCall(DeadLetterOutbox(h.item, h.worker, reason, now)))
    case Crash => Some(Reopen)
  }

  function Perform(sys: System, op: Option<Op>): System {
    match op
    case None => sys
    case Some(op) => Exec(sys, op)
  }

  ghost predicate Publishes(w: World, step: WorldStep) {
    step.TryPublish? && step.hand.item in w.sys.mem.outbox.items
  }

  ghost function Publication(w: World, step: WorldStep): (Sink, bool)
    requires Publishes(w, step)
  {
    Publish(w.sink, w.sys.mem.outbox.items[step.hand.item], step.writes)
  }

  ghost function SinkAfter(w: World, step: WorldStep): Sink {
    if Publishes(w, step) then Publication(w, step).0
    else if step.Crash? then Sink(w.sink.file, KeysOn(w.sink.file))
    else w.sink
  }

  ghost function HeldAfter(w: World, step: WorldStep): map<Hand, nat> {
    match step
    case Claim(h, now, duration) =>
      if DecideOutbox(w.sys.mem.outbox, ClaimOutbox(h.item, h.worker, now, duration)).Commit?
      then w.held[h := ClaimedAttempt(w.sys.mem.outbox, h.item)] else w.held
    case Crash => map[]
    case _ => w.held
  }

  ghost function PublishedAfter(w: World, step: WorldStep): set<Hand> {
    match step
    case TryPublish(h, _) =>
      if Publishes(w, step) && Publication(w, step).1 then w.published + {h} else w.published - {h}
    case Ack(h, _) => w.published - {h}
    case Crash => {}
    case _ => w.published
  }

  ghost function ToldAfter(w: World, step: WorldStep): set<string> {
    if Publishes(w, step) && Publication(w, step).1 then w.told + {step.hand.item} else w.told
  }

  ghost function Next(w: World, step: WorldStep): World {
    World(Perform(w.sys, OpOf(step)), SinkAfter(w, step), HeldAfter(w, step), PublishedAfter(w, step),
          ToldAfter(w, step))
  }

  ghost function Steps(maxAttempts: nat): (World, WorldStep) -> Option<World> {
    (w: World, step: WorldStep) => if Legal(w, step, maxAttempts) then Some(Next(w, step)) else None
  }

  const START := World(INITIAL, Sink([], {}), map[], {}, {})

  // The invariant

  function StateOf(o: OutboxStore, id: string): OutboxState {
    Get(o.states, id, NO_OUTBOX_STATE)
  }

  ghost predicate ItemsNamed(o: OutboxStore) {
    forall id :: id in o.items ==> o.items[id].id == id && Named(o.items[id])
  }

  /** The item's key is on disk. */
  predicate OnDisk(o: OutboxStore, sink: Sink, id: string) {
    id in o.items && SinkKey(o.items[id]) in KeysOn(sink.file)
  }

  /** Every line is an item of the store whose publication was reported. */
  ghost predicate LinesAreItems(o: OutboxStore, file: seq<Line>, told: set<string>) {
    forall l :: l in file ==> l.ItemLine? && l.item.id in told && l.item.id in o.items && o.items[l.item.id] == l.item
  }

  ghost predicate Delivered(o: OutboxStore, sink: Sink, held: map<Hand, nat>, published: set<Hand>, told: set<string>,
                            maxAttempts: nat) {
    (forall id :: id in told ==> OnDisk(o, sink, id)) &&
    (forall h :: h in published ==> h.item in told) &&
    (forall id :: StateOf(o, id).acked ==> id in told) &&
    (forall h :: h in held ==> held[h] <= StateOf(o, h.item).lease.attempt) &&
    (forall id :: StateOf(o, id).deadLettered ==> 0 < maxAttempts <= StateOf(o, id).lease.attempt)
  }

  ghost predicate Good(w: World, maxAttempts: nat) {
    ItemsNamed(w.sys.mem.outbox) && SinkOk(w.sink) && LinesAreItems(w.sys.mem.outbox, w.sink.file, w.told) &&
    Delivered(w.sys.mem.outbox, w.sink, w.held, w.published, w.told, maxAttempts)
  }

  // What one operation does to items and states

  /** Items stay; attempts do not fall; only the named operation acknowledges or dead-letters. */
  ghost predicate Moved(a: OutboxStore, b: OutboxStore) {
    forall id :: id in a.items ==> id in b.items && b.items[id] == a.items[id]
  }

  ghost predicate StatesMoved(a: OutboxStore, b: OutboxStore, acks: set<string>, kills: set<string>) {
    forall id ::
      StateOf(a, id).lease.attempt <= StateOf(b, id).lease.attempt &&
      (StateOf(b, id).acked ==> StateOf(a, id).acked || id in acks) &&
      (StateOf(b, id).deadLettered ==> StateOf(a, id).deadLettered || id in kills)
  }

  function Acks(op: Op): set<string> {
    if op.OutboxCall? && op.outbox.AckOutbox? then {op.outbox.id} else {}
  }

  function Kills(op: Op): set<string> {
    if op.OutboxCall? && op.outbox.DeadLetterOutbox? then {op.outbox.id} else {}
  }

  lemma OutboxOpMoves(o: OutboxStore, op: OutboxOp)
    requires ItemsNamed(o) && (op.EnqueueOutbox? ==> op.item.id !in o.items)
    requires DecideOutbox(o, op).Commit?
    ensures var b := OutboxAfter(o, DecideOutbox(o, op).record);
            ItemsNamed(b) && Moved(o, b) && StatesMoved(o, b, Acks(OutboxCall(op)), Kills(OutboxCall(op)))
  {
  }

  lemma TaskEventMoves(o: OutboxStore, item: OutboxItem)
    requires ItemsNamed(o) && item.id !in o.items && Named(item)
    ensures ItemsNamed(AddOutboxItem(o, item)) && Moved(o, AddOutboxItem(o, item))
    ensures StatesMoved(o, AddOutboxItem(o, item), {}, {})
  {
  }

  lemma TaskEventIsNamed(m: State, op: Op)
    requires EventLog.Admissible(m, op) && NamesItem(m, op) && (op.CreateTask? || op.ApplyTask?) &&
             Decide(m, op).Commit?
    ensures var item := Decide(m, op).record.outbox; item.id !in m.outbox.items && Named(item)
  {
  }

  lemma OpMoves(sys: System, op: Op)
    requires ItemsNamed(sys.mem.outbox) && EventLog.Admissible(sys.mem, op) && NamesItem(sys.mem, op)
    requires Refines(Replay(sys.file), sys.mem, sys.pruned)
    ensures var a, b := sys.mem.outbox, Exec(sys, op).mem.outbox;
            ItemsNamed(b) && Moved(a, b) && StatesMoved(a, b, Acks(op), Kills(op))
  {
    OutboxAfterExec(sys, op);
    if op.OutboxCall? {
      if DecideOutbox(sys.mem.outbox, op.outbox).Commit? {
        OutboxOpMoves(sys.mem.outbox, op.outbox);
      }
    } else if (op.CreateTask? || op.ApplyTask?) && Decide(sys.mem, op).Commit? {
      TaskEventIsNamed(sys.mem, op);
      TaskEventMoves(sys.mem.outbox, Decide(sys.mem, op).record.outbox);
    }
  }

  // Every step keeps the invariant

  /** What a step makes of the workers' memory, given what the store was and became. */
  lemma DeliveredAfterOp(a: OutboxStore, b: OutboxStore, w: World, held: map<Hand, nat>, published: set<Hand>,
                         acks: set<string>, kills: set<string>, maxAttempts: nat)
    requires Delivered(a, w.sink, w.held, w.published, w.told, maxAttempts) && Moved(a, b) &&
             StatesMoved(a, b, acks, kills)
    requires acks <= w.told && published <= w.published
    requires forall id :: id in kills ==> exists h :: h in w.held && h.item == id && 0 < maxAttempts <= w.held[h]
    requires forall h :: h in held ==>
               (h in w.held && held[h] == w.held[h]) ||
               held[h] <= StateOf(b, h.item).lease.attempt
    ensures Delivered(b, w.sink, held, published, w.told, maxAttempts)
  {
    forall id | id in w.told ensures OnDisk(b, w.sink, id) {
      assert OnDisk(a, w.sink, id);
    }
  }

  lemma KeysStay(file: seq<Line>, longer: seq<Line>)
    requires file <= longer
    ensures KeysOn(file) <= KeysOn(longer)
  {
    forall key | key in KeysOn(file) ensures key in KeysOn(longer) {
      var l :| l in file && l.ItemLine? && Named(l.item) && SinkKey(l.item) == key;
      assert l in longer;
    }
  }

  lemma PublishStepKeepsGood(w: World, h: Hand, writes: bool, maxAttempts: nat)
    requires Good(w, maxAttempts) && h.item in w.sys.mem.outbox.items
    ensures Good(Next(w, TryPublish(h, writes)), maxAttempts)
  {
    var item := w.sys.mem.outbox.items[h.item];
    var (sink, ok) := Publish(w.sink, item, writes);
    PublishKeepsSink(w.sink, item, writes);
    KeysStay(w.sink.file, sink.file);
    forall l | l in sink.file
      ensures l.ItemLine? && l.item.id in ToldAfter(w, TryPublish(h, writes)) &&
              l.item.id in w.sys.mem.outbox.items && w.sys.mem.outbox.items[l.item.id] == l.item
    {
      assert l in w.sink.file || l == ItemLine(item);
    }
    forall id | id in ToldAfter(w, TryPublish(h, writes)) ensures OnDisk(w.sys.mem.outbox, sink, id) {
      assert id in w.told ==> OnDisk(w.sys.mem.outbox, w.sink, id);
    }
  }

  lemma ClaimSetsAttempt(sys: System, h: Hand, now: Time, duration: int)
    requires DecideOutbox(sys.mem.outbox, ClaimOutbox(h.item, h.worker, now, duration)).Commit?
    ensures var next := Exec(sys, OutboxCall(ClaimOutbox(h.item, h.worker, now, duration))).mem.outbox;
            StateOf(next, h.item).lease.attempt == ClaimedAttempt(sys.mem.outbox, h.item)
  {
    OutboxAfterExec(sys, OutboxCall(ClaimOutbox(h.item, h.worker, now, duration)));
  }

  /** The workers' memory after a step that leaves the outbox as `b`. */
  lemma StoreStepKeepsGood(w: World, step: WorldStep, op: Op, b: OutboxStore, maxAttempts: nat)
    requires Good(w, maxAttempts) && Legal(w, step, maxAttempts) && OpOf(step) == Some(op)
    requires ItemsNamed(b) && Moved(w.sys.mem.outbox, b) && StatesMoved(w.sys.mem.outbox, b, Acks(op), Kills(op))
    requires step.Claim? && DecideOutbox(w.sys.mem.outbox, op.outbox).Commit? ==>
               StateOf(b, step.hand.item).lease.attempt == ClaimedAttempt(w.sys.mem.outbox, step.hand.item)
    ensures SinkOk(SinkAfter(w, step)) && LinesAreItems(b, SinkAfter(w, step).file, ToldAfter(w, step))
    ensures Delivered(b, SinkAfter(w, step), HeldAfter(w, step), PublishedAfter(w, step), ToldAfter(w, step),
                      maxAttempts)
  {
    DeliveredAfterOp(w.sys.mem.outbox, b, w, HeldAfter(w, step), PublishedAfter(w, step), Acks(op), Kills(op),
                     maxAttempts);
  }

  ghost predicate WorldGood(w: World, maxAttempts: nat) {
    Good(w, maxAttempts) && Refines(Replay(w.sys.file), w.sys.mem, w.sys.pruned)
  }

  lemma StoreNextKeepsGood(w: World, step: WorldStep, op: Op, maxAttempts: nat)
    requires WorldGood(w, maxAttempts) && Legal(w, step, maxAttempts) && OpOf(step) == Some(op)
    ensures Good(Next(w, step), maxAttempts)
  {
    OpMoves(w.sys, op);
    if step.Claim? && DecideOutbox(w.sys.mem.outbox, op.outbox).Commit? {
      ClaimSetsAttempt(w.sys, step.hand, step.now, step.duration);
    }
    StoreStepKeepsGood(w, step, op, Exec(w.sys, op).mem.outbox, maxAttempts);
  }

  lemma NextRefines(w: World, step: WorldStep, maxAttempts: nat)
    requires WorldGood(w, maxAttempts)
    ensures var sys := Perform(w.sys, OpOf(step)); Refines(Replay(sys.file), sys.mem, sys.pruned)
  {
    if OpOf(step).Some? {
      ExecRefines(w.sys, OpOf(step).value);
    }
  }

  lemma NextKeepsGood(w: World, step: WorldStep, maxAttempts: nat)
    requires WorldGood(w, maxAttempts) && Legal(w, step, maxAttempts)
    ensures WorldGood(Next(w, step), maxAttempts)
  {
    NextRefines(w, step, maxAttempts);
    if step.TryPublish? {
      PublishStepKeepsGood(w, step.hand, step.writes, maxAttempts);
    } else {
      StoreNextKeepsGood(w, step, OpOf(step).value, maxAttempts);
    }
  }

  /** Every world that legal steps lead to is good. */
  lemma ReachableIsGood(w: World, maxAttempts: nat)
    requires Reaches(START, w, Steps(maxAttempts))
    ensures WorldGood(w, maxAttempts)
  {
    forall a, step | WorldGood(a, maxAttempts) && Legal(a, step, maxAttempts)
      ensures WorldGood(Next(a, step), maxAttempts)
    {
      NextKeepsGood(a, step, maxAttempts);
    }
    ReachableKeeps(START, w, Steps(maxAttempts), (a: World) => WorldGood(a, maxAttempts));
  }

  /**
   Delivery: whatever workers, failed writes and crashes there were, the key of every acknowledged item is on
   disk exactly once, and an item is a dead letter only after the allowed number of attempts.
   */
  lemma AckedItemsAreOnDiskOnce(w: World, maxAttempts: nat, id: string)
    requires Reaches(START, w, Steps(maxAttempts))
    ensures StateOf(w.sys.mem.outbox, id).acked ==>
              id in w.sys.mem.outbox.items && OnceOn(w.sink.file, SinkKey(w.sys.mem.outbox.items[id]))
    ensures StateOf(w.sys.mem.outbox, id).deadLettered ==>
            0 < maxAttempts <= StateOf(w.sys.mem.outbox, id).lease.attempt
    ensures NoKeyTwice(w.sink.file)
  {
    ReachableIsGood(w, maxAttempts);
    if StateOf(w.sys.mem.outbox, id).acked {
      assert OnDisk(w.sys.mem.outbox, w.sink, id);
      KeyOnIsOnce(w.sink.file, SinkKey(w.sys.mem.outbox.items[id]));
    }
  }

  /** The item itself is on disk, not only its key. */
  ghost predicate WrittenOut(w: World, id: string) {
    id in w.sys.mem.outbox.items && ItemLine(w.sys.mem.outbox.items[id]) in w.sink.file
  }

  /** No two of these items have one tenant and deduplication key between them, joined by the colon. */
  ghost predicate KeysDiffer(o: OutboxStore, ids: set<string>) {
    forall a, b :: a in ids && b in ids && a != b && a in o.items && b in o.items ==>
      SinkKey(o.items[a]) != SinkKey(o.items[b])
  }

  lemma OneLineForAKey(w: World, maxAttempts: nat, a: string, b: string)
    requires WorldGood(w, maxAttempts) && WrittenOut(w, a) && WrittenOut(w, b)
    requires SinkKey(w.sys.mem.outbox.items[a]) == SinkKey(w.sys.mem.outbox.items[b])
    ensures a == b
  {
    var i :| 0 <= i < |w.sink.file| && w.sink.file[i] == ItemLine(w.sys.mem.outbox.items[a]);
    var j :| 0 <= j < |w.sink.file| && w.sink.file[j] == ItemLine(w.sys.mem.outbox.items[b]);
  }

  lemma KeyOnDiskIsOurs(w: World, maxAttempts: nat, id: string)
    requires WorldGood(w, maxAttempts) && KeysDiffer(w.sys.mem.outbox, w.told) && id in w.told
    ensures WrittenOut(w, id)
  {
    assert OnDisk(w.sys.mem.outbox, w.sink, id);
    var l :| l in w.sink.file && l.ItemLine? && SinkKey(l.item) == SinkKey(w.sys.mem.outbox.items[id]);
  }

  /**
   When nothing is lost: every item whose publication was reported, and so every acknowledged one, is on disk
   exactly when no two reported items have the same tenant and deduplication key joined by the colon.
   */
  lemma ReportedItemsAreWrittenIffKeysDiffer(w: World, maxAttempts: nat)
    requires Reaches(START, w, Steps(maxAttempts))
    ensures (forall id :: id in w.told ==> WrittenOut(w, id)) <==> KeysDiffer(w.sys.mem.outbox, w.told)
    ensures forall id :: StateOf(w.sys.mem.outbox, id).acked ==> id in w.told
  {
    ReachableIsGood(w, maxAttempts);
    if forall id :: id in w.told ==> WrittenOut(w, id) {
      forall a, b | a in w.told && b in w.told && a != b
        ensures SinkKey(w.sys.mem.outbox.items[a]) != SinkKey(w.sys.mem.outbox.items[b])
      {
        assert WrittenOut(w, a) && WrittenOut(w, b);
        if SinkKey(w.sys.mem.outbox.items[a]) == SinkKey(w.sys.mem.outbox.items[b]) {
          OneLineForAKey(w, maxAttempts, a, b);
        }
      }
    }
    if KeysDiffer(w.sys.mem.outbox, w.told) {
      forall id | id in w.told ensures WrittenOut(w, id) {
        KeyOnDiskIsOurs(w, maxAttempts, id);
      }
    }
  }

  /** Of two acknowledged items with one key, at most one is on disk. */
  lemma SharedKeyLosesOne(w: World, maxAttempts: nat, a: string, b: string)
    requires Reaches(START, w, Steps(maxAttempts)) && a != b
    requires StateOf(w.sys.mem.outbox, a).acked && StateOf(w.sys.mem.outbox, b).acked
    requires a in w.sys.mem.outbox.items && b in w.sys.mem.outbox.items
    requires SinkKey(w.sys.mem.outbox.items[a]) == SinkKey(w.sys.mem.outbox.items[b])
    ensures !WrittenOut(w, a) || !WrittenOut(w, b)
  {
    ReachableIsGood(w, maxAttempts);
    if WrittenOut(w, a) && WrittenOut(w, b) {
      OneLineForAKey(w, maxAttempts, a, b);
    }
  }

  // A run that loses an acknowledged item

  predicate Complete(item: OutboxItem) {
    item.id != "" && item.tenantId != "" && item.taskId != "" && item.dedupKey != "" && item.topic != ""
  }

  /** Two items of one tenant with one deduplication key, from different Tasks. */
  predicate Twins(first: OutboxItem, second: OutboxItem) {
    Complete(first) && Complete(second) && first.id != second.id &&
    first.tenantId == second.tenantId && first.dedupKey == second.dedupKey && first.taskId != second.taskId
  }

  const WORKER := "worker"

  lemma QueuedNext(w: World, item: OutboxItem) returns (v: World)
    requires Reaches(START, w, Steps(1)) && Complete(item)
    requires item.id !in w.sys.mem.outbox.items && OutboxDedupKey(item) !in w.sys.mem.outbox.dedup
    ensures Reaches(START, v, Steps(1)) && v.sys.mem.outbox == AddOutboxItem(w.sys.mem.outbox, item)
    ensures v.sink == w.sink && v.held == w.held && v.published == w.published && v.told == w.told
  {
    var op := OutboxCall(EnqueueOutbox(item));
    OutboxAfterExec(w.sys, op);
    v := Next(w, Client(op));
    StepReaches(START, w, Client(op), v, Steps(1));
  }

  lemma BothQueued(first: OutboxItem, second: OutboxItem) returns (w: World)
    requires Twins(first, second)
    ensures Reaches(START, w, Steps(1))
    ensures w.sys.mem.outbox == AddOutboxItem(AddOutboxItem(EMPTY.outbox, first), second)
    ensures w.sink == START.sink && w.held == map[] && w.published == {} && w.told == {}
  {
    ReachesItself(START, Steps(1));
    var v := QueuedNext(START, first);
    w := QueuedNext(v, second);
  }

  lemma ClaimedNext(w: World, id: string) returns (v: World)
    requires Reaches(START, w, Steps(1)) && id in w.sys.mem.outbox.items && id !in w.sys.mem.outbox.states
    ensures Reaches(START, v, Steps(1))
    ensures var o := w.sys.mem.outbox;
            var state := NO_OUTBOX_STATE.(lease := NO_LEASE.Claimed(WORKER, 1, 1));
            v.sys.mem.outbox == o.(states := o.states[id := state])
    ensures Hand(WORKER, id) in v.held && (forall h :: h in w.held ==> h in v.held)
    ensures v.sink == w.sink && v.published == w.published && v.told == w.told
  {
    var claim := WorldStep.Claim(Hand(WORKER, id), 1, 1);
    OutboxAfterExec(w.sys, OutboxCall(ClaimOutbox(id, WORKER, 1, 1)));
    v := Next(w, claim);
    StepReaches(START, w, claim, v, Steps(1));
  }

  lemma BothPublished(w: World, first: OutboxItem, second: OutboxItem) returns (v: World)
    requires Twins(first, second) && Reaches(START, w, Steps(1)) && w.sink == START.sink && w.told == {}
    requires Hand(WORKER, first.id) in w.held && Hand(WORKER, second.id) in w.held
    requires first.id in w.sys.mem.outbox.items && w.sys.mem.outbox.items[first.id] == first
    requires second.id in w.sys.mem.outbox.items && w.sys.mem.outbox.items[second.id] == second
    ensures Reaches(START, v, Steps(1)) && v.sys == w.sys && Hand(WORKER, second.id) in v.published
    ensures v.sink.file == [ItemLine(first)] && v.told == {first.id, second.id}
  {
    var one := TryPublish(Hand(WORKER, first.id), true);
    var u := Next(w, one);
    StepReaches(START, w, one, u, Steps(1));
    var two := TryPublish(Hand(WORKER, second.id), true);
    v := Next(u, two);
    StepReaches(START, u, two, v, Steps(1));
  }

  /**
   The sink's key leaves the Task out: of any two items of one tenant with the same deduplication key, which the
   store keeps apart because they belong to different Tasks, a worker can publish both and acknowledge the second,
   which is then never on disk, although no other item is acknowledged.
   */
  lemma AckedItemIsLost(first: OutboxItem, second: OutboxItem) returns (w: World)
    requires Twins(first, second)
    ensures Reaches(START, w, Steps(1))
    ensures StateOf(w.sys.mem.outbox, second.id).acked && !WrittenOut(w, second.id)
    ensures forall id :: StateOf(w.sys.mem.outbox, id).acked ==> id == second.id
  {
    var queued := BothQueued(first, second);
    var one := ClaimedNext(queued, first.id);
    var both := ClaimedNext(one, second.id);
    var sent := BothPublished(both, first, second);
    w := AckedNext(sent, second.id);
  }

  lemma AckedNext(w: World, id: string) returns (v: World)
    requires Reaches(START, w, Steps(1)) && Hand(WORKER, id) in w.published && id in w.sys.mem.outbox.states
    requires w.sys.mem.outbox.states[id].lease.owner == WORKER && !w.sys.mem.outbox.states[id].acked
    ensures Reaches(START, v, Steps(1)) && v.sink == w.sink && v.sys.mem.outbox.items == w.sys.mem.outbox.items
    ensures StateOf(v.sys.mem.outbox, id).acked
    ensures forall k :: k != id ==> StateOf(v.sys.mem.outbox, k) == StateOf(w.sys.mem.outbox, k)
  {
    var ack := WorldStep.Ack(Hand(WORKER, id), 2);
    OutboxAfterExec(w.sys, OutboxCall(AckOutbox(id, WORKER, 2)));
    v := Next(w, ack);
    StepReaches(START, w, ack, v, Steps(1));
  }
}
