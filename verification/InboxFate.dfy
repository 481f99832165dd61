/**
 Which queued observations can ever be applied (internal/hub/service.go, ApplyInboxItem): applying one either goes
 through or changes nothing, and what is refused once may be refused for ever.
 */
module InboxFate {
  import opened Wrappers
  import opened Model
  import opened Journal
  import opened JournalOps
  import opened JournalRefinement
  import opened TaskChanges
  import opened ObservationProtocol
  import opened InboxDelivery
  import opened Folds

  /** No sub-step of an observation is refused by a Task that it may be applied to. */
  lemma {:induction false} NoStepIsRefused(v: View, o: Observation, base: string, n: nat)
    requires !Mismatch(v.task, o) && n <= |SubSteps(o, base)|
    ensures var (after, ok) := DeliverViewTo(v, SubSteps(o, base), n);
            ok && !Mismatch(after.task, o)
  {
    if n > 0 {
      NoStepIsRefused(v, o, base, n - 1);
    }
  }

  /**
   Applying a queued observation is all or nothing: it goes through if and only if the item decodes, its file parts
   can be moved and it names no other remote Task than the Task has; otherwise nothing changes, in memory or on file.
   */
  lemma ItemIsAppliedIff(sys: System, item: InboxItem, s: Setting, env: Env)
    requires Healthy(sys)
    ensures var (after, ok) := ApplyItem(sys, item, s.digest, s.move, env);
            (ok <==> s.Steps(item).Some? && Applicable(sys.mem.work, item)) && (!ok ==> after == sys)
  {
    if s.Steps(item).Some? && Applicable(sys.mem.work, item) {
      var key, steps := TaskKeyOf(item), s.Steps(item).value;
      var o := Pushed(item.payload.observation);
      var moved := o.(artifacts := Externalized(o.artifacts, s.move).value);
      StepsAreNamed(item, s);
      DeliveryAdvancesView(sys, key, steps, env, |steps|);
      assert steps == SubSteps(moved, BaseKey(o, s.digest));
      NoStepIsRefused(ViewOf(sys.mem.work, key), moved, BaseKey(o, s.digest), |steps|);
    }
  }

  /** The item decodes, its file parts can be moved, and it names a remote Task: its Task's, if that has one yet. */
  ghost predicate MayGoThrough(w: TaskStore, item: InboxItem, s: Setting) {
    s.Steps(item).Some? && item.payload.observation.remoteTaskId != "" &&
    (TaskKeyOf(item) in w.tasks ==> Applicable(w, item))
  }

  /** A Task without a remote Task, for an item that came before it. */
  function NewTask(key: Key): Task {
    Task(key.id, key.tenant, "", "", "", "", 0, "", "", Unknown, DeliveryPending, false, "", [], None, None,
         ZERO_TIME, ZERO_TIME, 0, 0)
  }

  lemma TaskCanBeCreated(before: seq<Op>, key: Key) returns (more: seq<Op>)
    requires ServiceRun(before)
    ensures ServiceRun(before + more)
    ensures var w, later := Run(INITIAL, before).mem.work, Run(INITIAL, before + more).mem.work;
            key in later.tasks &&
            if key in w.tasks then later == w else later.tasks[key].remoteTaskId == ""
  {
    if key in Run(INITIAL, before).mem.work.tasks {
      more := [];
      assert before + more == before;
    } else {
      var op := CreateTask(NewTask(key), Draft("task.created", "hub", ZERO_TIME), "");
      more := [op];
      RunAppend(INITIAL, before, op);
      WorkAfterExec(Run(INITIAL, before), op);
    }
  }

  /**
   Refused for ever: an item that may not go through now is refused whatever the service does, and each of its
   deliveries changes nothing, so a worker that keeps trying never gets rid of it.
   */
  lemma MismatchIsForever(before: seq<Op>, more: seq<Op>, item: InboxItem, s: Setting, env: Env)
    requires ServiceRun(before + more) && !MayGoThrough(Run(INITIAL, before).mem.work, item, s)
    ensures var later := Run(INITIAL, before + more);
            ApplyItem(later, item, s.digest, s.move, env) == (later, false)
  {
    ServiceRunsAreHealthy(before + more);
    ItemIsAppliedIff(Run(INITIAL, before + more), item, s, env);
    if TaskKeyOf(item) in Run(INITIAL, before).mem.work.tasks {
      TasksMoveForward(before, more, TaskKeyOf(item));
    }
  }

  /** Some continuation of the run applies the item. */
  ghost predicate AppliedSometime(before: seq<Op>, item: InboxItem, s: Setting) {
    exists more: seq<Op>, env: Env :: AppliedAfter(before, more, item, s, env)
  }

  ghost predicate AppliedAfter(before: seq<Op>, more: seq<Op>, item: InboxItem, s: Setting, env: Env) {
    ServiceRun(before + more) && ApplyItem(Run(INITIAL, before + more), item, s.digest, s.move, env).1
  }

  lemma SomeRunApplies(before: seq<Op>, item: InboxItem, s: Setting)
    requires ServiceRun(before) && MayGoThrough(Run(INITIAL, before).mem.work, item, s)
    ensures AppliedSometime(before, item, s)
  {
    var more := TaskCanBeCreated(before, TaskKeyOf(item));
    var env := Env(i => ZERO_TIME, i => "");
    ServiceRunsAreHealthy(before + more);
    ItemIsAppliedIff(Run(INITIAL, before + more), item, s, env);
    assert AppliedAfter(before, more, item, s, env);
  }

  /** Exactly which queued items can still be applied, after any run of the service. */
  lemma ItemIsAppliedSometimeIff(before: seq<Op>, item: InboxItem, s: Setting)
    requires ServiceRun(before)
    ensures AppliedSometime(before, item, s) <==> MayGoThrough(Run(INITIAL, before).mem.work, item, s)
  {
    if MayGoThrough(Run(INITIAL, before).mem.work, item, s) {
      SomeRunApplies(before, item, s);
    } else if AppliedSometime(before, item, s) {
      var more: seq<Op>, env: Env :| AppliedAfter(before, more, item, s, env);
      MismatchIsForever(before, more, item, s, env);
    }
  }

  // From the push to the Task

  /**
   A push that is accepted becomes an item of its Task that can be applied, if its file parts can be moved: it carries
   the pushed observation, marked as such, and its sub-steps are those of that observation.
   */
  lemma PushedItemMayGoThrough(w: TaskStore, key: Key, o: Observation, id: string, now: Time, s: Setting)
    requires key in w.tasks && o.remoteTaskId != ""
    requires w.tasks[key].remoteTaskId == "" || w.tasks[key].remoteTaskId == o.remoteTaskId
    ensures var item := PushItem(key, o, s.digest, id, now);
            TaskKeyOf(item) == key && item.id == id && item.createdAt == now &&
            (MayGoThrough(w, item, s) <==> Externalized(o.artifacts, s.move).Some?) &&
            (s.Steps(item).Some? ==>
               var pushed := o.(source := "a2a-push");
               s.Steps(item).value ==
               SubSteps(pushed.(artifacts := Externalized(o.artifacts, s.move).value),
                        if o.dedupKey != "" then o.dedupKey else "observation:" + s.digest(pushed)))
  {
  }

  /** No two different observations agree on their digest. */
  ghost predicate TellsApart(digest: Observation -> string) {
    forall o, p :: digest(o) == digest(p) ==> o == p
  }

  /**
   Two pushes to one Task without keys of their own are queued under one key exactly if they push the same observation;
   with keys of their own, exactly if those are the same.
   */
  lemma PushesShareKeyIff(key: Key, o: Observation, p: Observation, digest: Observation -> string, a: string, b: string,
                          now: Time, later: Time)
    requires TellsApart(digest) && (o.dedupKey == "" <==> p.dedupKey == "")
    ensures InboxDedupKey(PushItem(key, o, digest, a, now)) == InboxDedupKey(PushItem(key, p, digest, b, later))
            <==> if o.dedupKey == "" then o.(source := "") == p.(source := "") else o.dedupKey == p.dedupKey
  {
    var base, tail, other := "push:", digest(Pushed(o)), digest(Pushed(p));
    if base + tail == base + other {
      assert tail == (base + tail)[5..] == (base + other)[5..] == other;
    }
    assert Pushed(o) == Pushed(p) <==> o.(source := "") == p.(source := "") by {
      assert o.(source := "") == Pushed(o).(source := "") && p.(source := "") == Pushed(p).(source := "");
    }
  }

  /** Likewise for the sub-steps: without a key of its own an observation is known by what it says. */
  lemma ObservationsShareBaseIff(o: Observation, p: Observation, digest: Observation -> string)
    requires TellsApart(digest) && (o.dedupKey == "" <==> p.dedupKey == "")
    ensures BaseKey(o, digest) == BaseKey(p, digest) <==> if o.dedupKey == "" then o == p else o.dedupKey == p.dedupKey
  {
    var base := "observation:";
    if base + digest(o) == base + digest(p) {
      assert digest(o) == (base + digest(o))[12..] == (base + digest(p))[12..] == digest(p);
    }
  }
}
