/**
 What the scanner's line limit means for a sink that is written without one (internal/worker/file_outbox.go): when the
 sink can be opened again after a run, and a run after which it never can.
 */
module SinkLimits {
  import opened Wrappers
  import opened Model
  import opened Journal
  import opened JournalOps
  import opened LineLimits
  import opened Worlds
  import opened OutboxDelivery

  /** The item, if it is on the file, fits the scanner's buffer. */
  ghost predicate LineFits(w: World, id: string, size: Line -> nat) {
    WrittenOut(w, id) ==> size(ItemLine(w.sys.mem.outbox.items[id])) <= SINK_LINE
  }

  /**
   After any run of workers and crashes, the sink can be opened again if and only if every item whose publication was
   reported and that is on the file fits the scanner's buffer.
   */
  lemma SinkOpensIffReportedItemsFit(w: World, maxAttempts: nat, size: Line -> nat)
    requires Reaches(START, w, Steps(maxAttempts))
    ensures Readable(w.sink.file, size, SINK_LINE) <==> forall id :: id in w.told ==> LineFits(w, id, size)
  {
    ReachableIsGood(w, maxAttempts);
    if Readable(w.sink.file, size, SINK_LINE) {
      forall id | id in w.told && WrittenOut(w, id) ensures LineFits(w, id, size) {
        var i :| 0 <= i < |w.sink.file| && w.sink.file[i] == ItemLine(w.sys.mem.outbox.items[id]);
      }
    }
    if forall id :: id in w.told ==> LineFits(w, id, size) {
      forall i | 0 <= i < |w.sink.file| ensures size(w.sink.file[i]) <= SINK_LINE {
        assert w.sink.file[i] in w.sink.file;
        assert LineFits(w, w.sink.file[i].item.id, size);
      }
    }
  }

  // A world whose crashes end in a reopening only if the sink can be read

  ghost function RestartableSteps(size: Line -> nat, maxAttempts: nat): (World, WorldStep) -> Option<World> {
    (w: World, step: WorldStep) =>
      if step.Crash? && !Readable(w.sink.file, size, SINK_LINE) then None else Steps(maxAttempts)(w, step)
  }

  /** Such a world is one of OutboxDelivery's, so what is proved there holds here. */
  lemma RestartableIsReachable(w: World, size: Line -> nat, maxAttempts: nat)
    requires Reaches(START, w, RestartableSteps(size, maxAttempts))
    ensures Reaches(START, w, Steps(maxAttempts))
  {
    FewerStepsReach(START, w, RestartableSteps(size, maxAttempts), Steps(maxAttempts));
  }

  /** The sink's file is append-only. */
  lemma SinkIsAppendOnly(w: World, v: World, maxAttempts: nat)
    requires Reaches(w, v, Steps(maxAttempts))
    ensures w.sink.file <= v.sink.file
  {
    ReachableKeeps(w, v, Steps(maxAttempts), (a: World) => w.sink.file <= a.sink.file);
  }

  /** Once the sink cannot be read it never can: no later world allows a restart. */
  lemma UnreadableSinkEndsRestarts(w: World, v: World, size: Line -> nat, maxAttempts: nat)
    requires !Readable(w.sink.file, size, SINK_LINE) && Reaches(w, v, Steps(maxAttempts))
    ensures !Readable(v.sink.file, size, SINK_LINE) && RestartableSteps(size, maxAttempts)(v, Crash).None?
  {
    SinkIsAppendOnly(w, v, maxAttempts);
    UnreadableStays(w.sink.file, v.sink.file, size, SINK_LINE);
  }

  // A run that reaches such a world

  lemma OneQueued(item: OutboxItem) returns (w: World)
    requires Complete(item)
    ensures Reaches(START, w, Steps(1)) && w.sink == START.sink
    ensures w.sys.mem.outbox == AddOutboxItem(EMPTY.outbox, item)
  {
    ReachesItself(START, Steps(1));
    w := QueuedNext(START, item);
  }

  lemma PublishedNext(w: World, item: OutboxItem) returns (v: World)
    requires Reaches(START, w, Steps(1)) && Hand(WORKER, item.id) in w.held && w.sink == START.sink
    requires item.id in w.sys.mem.outbox.items && w.sys.mem.outbox.items[item.id] == item
    ensures Reaches(START, v, Steps(1)) && v.sys == w.sys && Hand(WORKER, item.id) in v.published
    ensures v.sink.file == [ItemLine(item)]
  {
    var publish := TryPublish(Hand(WORKER, item.id), true);
    v := Next(w, publish);
    StepReaches(START, w, publish, v, Steps(1));
  }

  /**
   Publishing never looks at the length: for every item that is too long there is a run without any failure in which
   it is published and acknowledged, and after which the sink can never be opened again.
   */
  lemma LongItemBlocksReopening(item: OutboxItem, size: Line -> nat) returns (w: World)
    requires Complete(item) && size(ItemLine(item)) > SINK_LINE
    ensures Reaches(START, w, Steps(1)) && StateOf(w.sys.mem.outbox, item.id).acked
    ensures forall v :: Reaches(w, v, Steps(1)) ==> !Readable(v.sink.file, size, SINK_LINE)
  {
    var queued := OneQueued(item);
    var claimed := ClaimedNext(queued, item.id);
    var sent := PublishedNext(claimed, item);
    w := AckedNext(sent, item.id);
    assert size(w.sink.file[0]) > SINK_LINE;
    forall v | Reaches(w, v, Steps(1)) ensures !Readable(v.sink.file, size, SINK_LINE) {
      UnreadableSinkEndsRestarts(w, v, size, 1);
    }
  }
}
