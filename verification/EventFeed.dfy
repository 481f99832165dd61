/**
 The event feed of a Task (internal/hub/http.go, the cursor loop of getEvents): what a client that follows
 a log sees while the log grows, and what it sees if it reconnects with the last sequence it received.
 */
module EventFeed {
  import opened Model
  import opened Journal
  import opened JournalOps
  import opened JournalRefinement
  import opened EventLog
  import opened TaskChanges

  /** The Task's log is numbered from 1 to its last sequence. */
  ghost predicate Numbered(w: TaskStore, key: Key) {
    key in w.tasks ==>
      key in w.events && |w.events[key]| == w.tasks[key].lastSequence &&
      forall i :: 0 <= i < |w.events[key]| ==> w.events[key][i].sequence == i + 1
  }

  /** The Task's log has at most grown at its end. */
  ghost predicate Extends(a: TaskStore, b: TaskStore, key: Key) {
    key in a.tasks ==> key in b.tasks && key in a.events && key in b.events && a.events[key] <= b.events[key]
  }

  /** Successive views of the store: what a client's accesses find while others write. */
  ghost predicate Successive(views: seq<TaskStore>, key: Key) {
    (forall i :: 0 <= i < |views| ==> Numbered(views[i], key)) &&
    (forall i, j :: 0 <= i <= j < |views| ==> Extends(views[i], views[j], key))
  }

  /** The events of a log whose sequence numbers follow the cursor. */
  function Following(log: seq<Event>, cursor: nat): seq<Event> {
    log[Min(cursor, |log|)..]
  }

  lemma ReadIsFollowing(w: TaskStore, key: Key, cursor: nat)
    requires Numbered(w, key) && key in w.tasks
    ensures EventsAfter(w.events[key], cursor) == Following(w.events[key], cursor)
    ensures forall i :: 0 <= i < |Following(w.events[key], cursor)| ==>
              Following(w.events[key], cursor)[i].sequence == cursor + 1 + i
  {
    EventsAfterIsSuffix(w.events[key], cursor);
  }

  /** The k-th read was the last there is to make: the Task is terminal after it, and nothing was left to send. */
  ghost predicate IsOver(views: seq<TaskStore>, key: Key, cursor: nat, k: nat) {
    2 * k + 1 < |views| && key in views[2 * k + 1].tasks &&
    key in views[2 * k].events && key in views[2 * k + 1].events &&
    var state := views[2 * k + 1].tasks[key].state;
    (state == Completed || state == Failed || state == Canceled || state == Rejected) &&
    Following(views[2 * k + 1].events[key], cursor) == Following(views[2 * k].events[key], cursor)
  }

  /** What was read up to a cursor and what follows it later join without a gap or a repetition. */
  lemma FollowingJoins(earlier: seq<Event>, later: seq<Event>, cursor: nat)
    requires earlier <= later
    ensures var next := if Following(earlier, cursor) == [] then cursor else |earlier|;
            Following(earlier, cursor) + Following(later, next) == Following(later, cursor)
  {
    if cursor < |earlier| {
      assert later[cursor..] == later[cursor..|earlier|] + later[|earlier|..];
      assert earlier[cursor..] == later[cursor..|earlier|];
    }
  }

  class Feed {
    /** The events sent so far. */
    var written: seq<Event>

    constructor ()
      ensures written == []
    {
      written := [];
    }

    /** Sends a batch; the cursor is the sequence of the last event sent. */
    method Send(events: seq<Event>, cursor: nat) returns (after: nat)
      modifies this
      ensures written == old(written) + events
      ensures after == if events == [] then cursor else events[|events| - 1].sequence
    {
      after := cursor;
      var i := 0;
      while i < |events|
        invariant 0 <= i <= |events| && written == old(written) + events[..i]
        invariant after == if i == 0 then cursor else events[i - 1].sequence
      {
        written := written + [events[i]];
        after := events[i].sequence;
        i := i + 1;
      }
    }

    /** Everything of the log after the cursor has been sent, and `after` is where to go on. */
    ghost predicate Sent(log: seq<Event>, cursor: nat, after: nat)
      reads this
    {
      written == Following(log, cursor) && after == if written == [] then cursor else |log|
    }

    /** Reads what is new in a view of the store, and sends it. */
    method Poll(key: Key, view: TaskStore, after: nat, ghost before: seq<Event>, ghost cursor: nat) returns (next: nat)
      requires Numbered(view, key) && key in view.tasks && before <= view.events[key] && Sent(before, cursor, after)
      modifies this
      ensures Sent(view.events[key], cursor, next)
    {
      ReadIsFollowing(view, key, after);
      FollowingJoins(before, view.events[key], cursor);
      next := Send(EventsAfter(view.events[key], after), after);
    }

    /** The n-th read has been sent, and the stream was not over before. */
    ghost predicate SentTo(views: seq<TaskStore>, key: Key, cursor: nat, n: nat, after: nat)
      reads this
    {
      2 * n < |views| && key in views[2 * n].tasks && key in views[2 * n].events &&
      Sent(views[2 * n].events[key], cursor, after) && forall k: nat :: k < n ==> !IsOver(views, key, cursor, k)
    }

    method PollNext(key: Key, views: seq<TaskStore>, after: nat, n: nat, ghost cursor: nat) returns (next: nat)
      requires Successive(views, key) && SentTo(views, key, cursor, n, after) && 2 * n + 2 < |views|
      requires !IsOver(views, key, cursor, n)
      modifies this
      ensures SentTo(views, key, cursor, n + 1, next)
    {
      assert Extends(views[2 * n], views[2 * n + 2], key) && Numbered(views[2 * n + 2], key);
      next := Poll(key, views[2 * n + 2], after, views[2 * n].events[key], cursor);
    }

    /**
     Follows a Task's log. `views` are what the successive accesses to the store find: events, then the Task,
     alternately; the client is gone when they end. `last` is the last read of events. The stream ends by itself at
     the first read after which the Task is terminal with nothing left to send, and only there.
     */
    method Follow(key: Key, cursor: nat, follow: bool, views: seq<TaskStore>)
      returns (ok: bool, finished: bool, ghost last: nat)
      requires written == [] && |views| >= 1 && Successive(views, key)
      modifies this
      ensures ok <==> key in views[0].tasks
      ensures !ok ==> written == []
      ensures ok ==>
                2 * last < |views| && key in views[2 * last].tasks && key in views[2 * last].events &&
                written == Following(views[2 * last].events[key], cursor)
      ensures ok && !follow ==> finished && last == 0
      ensures ok && follow && finished ==>
                IsOver(views, key, cursor, last) && written == Following(views[2 * last + 1].events[key], cursor)
      ensures ok && follow ==> forall k: nat :: k < last ==> !IsOver(views, key, cursor, k)
      ensures ok && follow && !finished ==> !IsOver(views, key, cursor, last) && 2 * last + 2 >= |views|
    {
      last, finished := 0, false;
      if key !in views[0].tasks {
        return false, false, last;
      }
      var after: nat := Poll(key, views[0], cursor, [], cursor);
      if !follow {
        return true, true, last;
      }
      var n: nat := 0;
      while 2 * n + 1 < |views|
        invariant SentTo(views, key, cursor, n, after)
        decreases |views| - n
      {
        OverAt(views, key, cursor, n, after);
        var task := views[2 * n + 1].tasks[key];
        if task.state.Terminal() && after >= task.lastSequence {
          return true, true, n;
        }
        if 2 * n + 2 >= |views| {
          return true, false, n;
        }
        after := PollNext(key, views, after, n, cursor);
        n := n + 1;
      }
      return true, false, n;
    }
  }

  /** The loop's test is that the stream is over. */
  lemma OverAt(views: seq<TaskStore>, key: Key, cursor: nat, n: nat, after: nat)
    requires Successive(views, key) && 2 * n + 1 < |views| && key in views[2 * n].tasks
    requires var log := views[2 * n].events[key]; after == if Following(log, cursor) == [] then cursor else |log|
    ensures key in views[2 * n + 1].tasks
    ensures var task := views[2 * n + 1].tasks[key];
            IsOver(views, key, cursor, n) <==> task.state.Terminal() && after >= task.lastSequence
  {
    assert Extends(views[2 * n], views[2 * n + 1], key) && Numbered(views[2 * n], key);
    assert Numbered(views[2 * n + 1], key);
    var log, later := views[2 * n].events[key], views[2 * n + 1].events[key];
    if Following(later, cursor) == Following(log, cursor) {
      assert |Following(later, cursor)| == |Following(log, cursor)|;
    } else {
      assert log != later;
    }
  }

  /** What is sent is numbered from just after the cursor, without a gap or a repetition. */
  lemma FollowingIsContiguous(w: TaskStore, key: Key, cursor: nat, i: nat)
    requires Numbered(w, key) && key in w.tasks && i < |Following(w.events[key], cursor)|
    ensures Following(w.events[key], cursor)[i].sequence == cursor + 1 + i
    ensures cursor + |Following(w.events[key], cursor)| == w.tasks[key].lastSequence
  {
    ReadIsFollowing(w, key, cursor);
  }

  /**
   Reconnecting is seamless: a client that was cut off anywhere in what it was sent, and comes back with the
   sequence of the last event it received, has in the end received each event after its first cursor once.
   */
  lemma ReconnectingIsSeamless(w: TaskStore, later: TaskStore, key: Key, cursor: nat, received: seq<Event>)
    requires Numbered(w, key) && Numbered(later, key) && Extends(w, later, key) && key in w.tasks
    requires received <= EventsAfter(w.events[key], cursor)
    ensures var last := if received == [] then cursor else received[|received| - 1].sequence;
            received + EventsAfter(later.events[key], last) == EventsAfter(later.events[key], cursor)
  {
    ReadIsFollowing(w, key, cursor);
    var log := w.events[key];
    if received != [] {
      var cut := log[..cursor + |received|];
      assert received == Following(cut, cursor);
      FollowingJoins(cut, later.events[key], cursor);
      ReadIsFollowing(later, key, cursor + |received|);
    }
    ReadIsFollowing(later, key, cursor);
  }

  lemma {:induction false} PrefixIsAdmissible(ops: seq<Op>, n: nat)
    requires AdmissibleRun(ops) && n <= |ops|
    ensures AdmissibleRun(ops[..n])
  {
    if n < |ops| {
      PrefixIsAdmissible(ops[..|ops| - 1], n);
      assert ops[..|ops| - 1][..n] == ops[..n];
    } else {
      assert ops[..n] == ops;
    }
  }

  lemma OneOpExtendsLog(sys: System, op: Op, key: Key)
    requires LogInvariant(sys.mem) && Refines(Replay(sys.file), sys.mem, sys.pruned)
    ensures Extends(sys.mem.work, Exec(sys, op).mem.work, key)
  {
    WorkAfterExec(sys, op);
  }

  lemma {:induction false} LogsOnlyGrow(ops: seq<Op>, n: nat, key: Key)
    requires AdmissibleRun(ops) && n <= |ops|
    ensures Extends(Run(INITIAL, ops[..n]).mem.work, Run(INITIAL, ops).mem.work, key)
  {
    if n == |ops| {
      assert ops[..n] == ops;
      LogsAgree(ops);
    } else {
      var front := ops[..|ops| - 1];
      assert front[..n] == ops[..n];
      LogsOnlyGrow(front, n, key);
      LogsAgree(front);
      ReplayRestoresMemory(front);
      OneOpExtendsLog(Run(INITIAL, front), ops[|ops| - 1], key);
    }
  }

  lemma LogsAreNumbered(ops: seq<Op>, key: Key)
    requires AdmissibleRun(ops)
    ensures Numbered(Run(INITIAL, ops).mem.work, key)
  {
    LogsAgree(ops);
    var w := Run(INITIAL, ops).mem.work;
    if key in w.tasks {
      assert LogAgrees(key, w.tasks[key], w.events[key], w.dedupKeys[key]);
    }
  }

  function WorkAt(ops: seq<Op>, n: nat): TaskStore
    requires n <= |ops|
  {
    Run(INITIAL, ops[..n]).mem.work
  }

  /** The Task stores found at some points of a run. */
  function ViewsAt(ops: seq<Op>, points: seq<nat>): seq<TaskStore>
    requires forall i :: 0 <= i < |points| ==> points[i] <= |ops|
  {
    seq(|points|, i requires 0 <= i < |points| => WorkAt(ops, points[i]))
  }

  lemma OnePoint(ops: seq<Op>, n: nat, key: Key)
    requires AdmissibleRun(ops) && n <= |ops|
    ensures Numbered(WorkAt(ops, n), key)
  {
    PrefixIsAdmissible(ops, n);
    LogsAreNumbered(ops[..n], key);
  }

  lemma TwoPoints(ops: seq<Op>, m: nat, n: nat, key: Key)
    requires AdmissibleRun(ops) && m <= n <= |ops|
    ensures Extends(WorkAt(ops, m), WorkAt(ops, n), key)
  {
    PrefixIsAdmissible(ops, n);
    assert ops[..n][..m] == ops[..m];
    LogsOnlyGrow(ops[..n], m, key);
  }

  /** Views at successive points of any run of the store are what Follow and reconnecting ask for. */
  lemma ViewsOfARunAreSuccessive(ops: seq<Op>, points: seq<nat>, key: Key)
    requires AdmissibleRun(ops) && forall i :: 0 <= i < |points| ==> points[i] <= |ops|
    requires forall i, j :: 0 <= i <= j < |points| ==> points[i] <= points[j]
    ensures Successive(ViewsAt(ops, points), key)
  {
    var views := ViewsAt(ops, points);
    forall i, j | 0 <= i <= j < |points| ensures Numbered(views[j], key) && Extends(views[i], views[j], key) {
      OnePoint(ops, points[j], key);
      TwoPoints(ops, points[i], points[j], key);
    }
  }
}
