/**
 Applying an observation (internal/hub/service.go, applyObservation): one keyed change for the status and
 one for each artifact update, each committed on its own, so that a redelivery after a crash anywhere
 between them completes exactly what is missing.
 */
module ObservationProtocol {
  import opened Wrappers
  import opened Model
  import opened Text
  import opened Journal
  import opened JournalOps
  import opened JournalRefinement
  import opened JournalStoreImpl
  import opened TaskChanges
  import opened Folds

  /** A change and the deduplication key it is committed under. */
  datatype SubStep = SubStep(dedup: string, change: Change)

  function BaseKey(o: Observation, digest: Observation -> string): string {
    if o.dedupKey != "" then o.dedupKey else "observation:" + digest(o)
  }

  predicate ReportsStatus(o: Observation) {
    !o.state.Unknown? || o.remoteTaskId != "" || o.problem.Some? || o.cancelRequested
  }

  function ArtifactStep(o: Observation, base: string, i: nat): SubStep
    requires i < |o.artifacts|
  {
    SubStep(base + ":artifact:" + o.artifacts[i].artifact.id + ":" + Decimal(i), AddArtifact(o.artifacts[i], o.source))
  }

  function StatusSteps(o: Observation, base: string): seq<SubStep> {
    if ReportsStatus(o) then [SubStep(base + ":status", ApplyStatus(o))] else []
  }

  function SubSteps(o: Observation, base: string): seq<SubStep> {
    StatusSteps(o, base) +
    seq(|o.artifacts|, i requires 0 <= i < |o.artifacts| => ArtifactStep(o, base, i))
  }

  ghost predicate DistinctKeys(steps: seq<SubStep>) {
    forall i, j :: 0 <= i < j < |steps| ==> steps[i].dedup != steps[j].dedup
  }

  ghost predicate Named(steps: seq<SubStep>) {
    forall i :: 0 <= i < |steps| ==> steps[i].dedup != ""
  }

  /** The sub-steps of one observation never share a key, whatever its artifact IDs look like. */
  lemma SubStepKeysDistinct(o: Observation, base: string)
    ensures DistinctKeys(SubSteps(o, base)) && Named(SubSteps(o, base))
  {
    forall i, j | 0 <= i < |o.artifacts| && 0 <= j < |o.artifacts| &&
                  ArtifactStep(o, base, i).dedup == ArtifactStep(o, base, j).dedup
      ensures i == j
    {
      DecimalHasNoColon(i);
      DecimalHasNoColon(j);
      LastSeparator(base + ":artifact:" + o.artifacts[i].artifact.id, Decimal(i),
                    base + ":artifact:" + o.artifacts[j].artifact.id, Decimal(j), ':');
      DecimalIsInjective(i, j);
    }
    forall i | 0 <= i < |o.artifacts| ensures ArtifactStep(o, base, i).dedup != base + ":status" {
      StatusKeyIsNoArtifactKey(o, base, i);
    }
  }

  lemma StatusKeyIsNoArtifactKey(o: Observation, base: string, i: nat)
    requires i < |o.artifacts|
    ensures ArtifactStep(o, base, i).dedup != base + ":status"
  {
    var prefix := base + ":artifact:" + o.artifacts[i].artifact.id;
    DecimalHasNoColon(i);
    if prefix + ":" + Decimal(i) == base + ":" + "status" {
      LastSeparator(prefix, Decimal(i), base, "status", ':');
    }
    assert base + ":" + "status" == base + ":status";
  }

  // Delivery to the store

  function StepOp(key: Key, s: SubStep, now: Time, eventId: string): Op {
    ApplyTask(key, 0, s.dedup, Mutator(s.change, now), eventId)
  }

  /** The clock and the new IDs that one delivery meets. */
  datatype Env = Env(now: nat -> Time, eventId: nat -> string)

  /** Commits one sub-step, unless the store refuses it. */
  function DeliverOne(sys: System, key: Key, s: SubStep, now: Time, eventId: string): Option<System> {
    var op := StepOp(key, s, now, eventId);
    if Decide(sys.mem, op).Refuse? then None else Some(Exec(sys, op))
  }

  function Delivering(key: Key, steps: seq<SubStep>, env: Env): (System, nat) -> Option<System> {
    (sys: System, i: nat) => if i < |steps| then DeliverOne(sys, key, steps[i], env.now(i), env.eventId(i)) else None
  }

  /** Commits the sub-steps up to the first that is refused, and tells whether none was. */
  function Deliver(sys: System, key: Key, steps: seq<SubStep>, env: Env): (System, bool) {
    Fold(sys, Delivering(key, steps, env), |steps|)
  }

  /** Every artifact with its file parts moved to object storage, unless one of them cannot be. */
  function Externalized(updates: seq<ArtifactUpdate>,
                        move: (nat, Artifact) -> Option<Artifact>): Option<seq<ArtifactUpdate>> {
    if updates == [] then Some([])
    else
      var last := |updates| - 1;
      match (Externalized(updates[..last], move), move(last, updates[last].artifact))
      case (Some(earlier), Some(artifact)) => Some(earlier + [updates[last].(artifact := artifact)])
      case _ => None
  }

  lemma {:induction false} ExternalizedPrefix(updates: seq<ArtifactUpdate>, move: (nat, Artifact) -> Option<Artifact>,
                                              n: nat)
    requires n <= |updates|
    ensures Externalized(updates[..n], move).None? ==> Externalized(updates, move).None?
  {
    if n < |updates| {
      var front := updates[..|updates| - 1];
      assert front[..n] == updates[..n];
      ExternalizedPrefix(front, move, n);
    } else {
      assert updates[..n] == updates;
    }
  }

  // The inbox: observations pushed by the provider

  predicate Mismatch(t: Task, o: Observation) {
    o.remoteTaskId == "" || (t.remoteTaskId != "" && o.remoteTaskId != t.remoteTaskId)
  }

  function Pushed(o: Observation): Observation {
    o.(source := "a2a-push")
  }

  function PushItem(key: Key, o: Observation, digest: Observation -> string, id: string, now: Time): InboxItem {
    InboxItem(id, key.tenant, key.id, if o.dedupKey != "" then o.dedupKey else "push:" + digest(Pushed(o)),
              "a2a", EncodedObservation(Pushed(o)), now)
  }

  function TaskKeyOf(item: InboxItem): Key {
    Key(item.tenantId, item.taskId)
  }

  /** The sub-steps of a queued observation, if its bytes decode and its file parts can be stored. */
  function ItemSteps(item: InboxItem, digest: Observation -> string,
                     move: (nat, Artifact) -> Option<Artifact>): Option<seq<SubStep>> {
    if item.protocol != "a2a" then None
    else
      match item.payload
      case Undecodable => None
      case EncodedObservation(o) =>
        match Externalized(o.artifacts, move)
        case None => None
        case Some(updates) => Some(SubSteps(Pushed(o).(artifacts := updates), BaseKey(Pushed(o), digest)))
  }

  /** The queued observation may be applied to the Task as it is now. */
  predicate Applicable(w: TaskStore, item: InboxItem) {
    TaskKeyOf(item) in w.tasks && item.payload.EncodedObservation? &&
    !Mismatch(w.tasks[TaskKeyOf(item)], item.payload.observation)
  }

  function ApplyItem(sys: System, item: InboxItem, digest: Observation -> string,
                     move: (nat, Artifact) -> Option<Artifact>, env: Env): (System, bool) {
    match ItemSteps(item, digest, move)
    case None => (sys, false)
    case Some(steps) =>
      if Applicable(sys.mem.work, item) then Deliver(sys, TaskKeyOf(item), steps, env) else (sys, false)
  }

  datatype PushError = UnknownTask | InvalidCredential | TaskMismatch | NotQueued(error: StoreError)

  class Service {
    const store: JournalStore
    const digest: Observation -> string
    /** The digest of a push token. */
    const hash: string -> string

    constructor (store: JournalStore, digest: Observation -> string, hash: string -> string)
      ensures this.store == store && this.digest == digest && this.hash == hash
    {
      this.store, this.digest, this.hash := store, digest, hash;
    }

    /** Queues a pushed observation, for whoever knows the Task's token. */
    method AcceptPush(key: Key, token: string, o: Observation, id: string, now: Time)
      returns (r: Result<Task, PushError>)
      modifies store
      ensures var was := old(store.Now());
              var item := PushItem(key, o, digest, id, now);
              var may := key in was.mem.work.tasks &&
                         was.mem.work.tasks[key].pushTokenHash != "" &&
                         was.mem.work.tasks[key].pushTokenHash == hash(token) &&
                         !Mismatch(was.mem.work.tasks[key], o);
              store.Now() == (if may then Exec(was, InboxCall(EnqueueInbox(item))) else was) &&
              (r.Ok? <==> may && !DecideInbox(was.mem.inbox, EnqueueInbox(item)).Refuse?) &&
              (r.Ok? ==> r.value == was.mem.work.tasks[key])
    {
      if key !in store.work.tasks {
        return Err(UnknownTask);
      }
      var task := store.work.tasks[key];
      if task.pushTokenHash == "" || task.pushTokenHash != hash(token) {
        return Err(InvalidCredential);
      }
      if o.remoteTaskId == "" || (task.remoteTaskId != "" && o.remoteTaskId != task.remoteTaskId) {
        return Err(TaskMismatch);
      }
      var pushed := o.(source := "a2a-push");
      var dedup := o.dedupKey;
      if dedup == "" {
        dedup := "push:" + digest(pushed);
      }
      var d := store.EnqueueInboxItem(InboxItem(id, key.tenant, key.id, dedup, "a2a", EncodedObservation(pushed), now));
      return if d.Refuse? then Err(NotQueued(d.error)) else Ok(task);
    }

    /** Applies a queued observation to the Task as it is now. */
    method ApplyInboxItem(item: InboxItem, move: (nat, Artifact) -> Option<Artifact>, env: Env) returns (ok: bool)
      modifies store
      ensures (store.Now(), ok) == ApplyItem(old(store.Now()), item, digest, move, env)
    {
      if item.protocol != "a2a" || item.payload.Undecodable? {
        return false;
      }
      var o := item.payload.observation;
      var key := Key(item.tenantId, item.taskId);
      if key !in store.work.tasks {
        return false;
      }
      var task := store.work.tasks[key];
      if o.remoteTaskId == "" || (task.remoteTaskId != "" && o.remoteTaskId != task.remoteTaskId) {
        return false;
      }
      ok := ApplyObservation(key, o.(source := "a2a-push"), move, env);
    }

    method Externalize(o: Observation, move: (nat, Artifact) -> Option<Artifact>) returns (r: Option<Observation>)
      ensures r == match Externalized(o.artifacts, move)
                   case None => None
                   case Some(updates) => Some(o.(artifacts := updates))
    {
      var updates := o.artifacts;
      var i := 0;
      while i < |updates|
        invariant 0 <= i <= |updates| == |o.artifacts| && updates[i..] == o.artifacts[i..]
        invariant Externalized(o.artifacts[..i], move) == Some(updates[..i])
      {
        var artifact := move(i, updates[i].artifact);
        assert o.artifacts[..i + 1][..i] == o.artifacts[..i];
        assert updates[i] == updates[i..][0] == o.artifacts[i..][0] == o.artifacts[i];
        if artifact.None? {
          ExternalizedPrefix(o.artifacts, move, i + 1);
          return None;
        }
        ghost var before := updates;
        updates := updates[i := updates[i].(artifact := artifact.value)];
        assert updates[..i + 1] == before[..i] + [updates[i]];
        assert updates[i + 1..] == before[i..][1..] == o.artifacts[i..][1..] == o.artifacts[i + 1..];
        i := i + 1;
      }
      assert o.artifacts[..i] == o.artifacts && updates[..i] == updates;
      return Some(o.(artifacts := updates));
    }

    /** The next sub-step of a delivery that has not been refused so far. */
    method ApplyStep(key: Key, s: SubStep, now: Time, eventId: string,
                     ghost start: System, ghost steps: seq<SubStep>, ghost env: Env, ghost n: nat)
      returns (ok: bool)
      requires n < |steps| && s == steps[n] && now == env.now(n) && eventId == env.eventId(n)
      requires Fold(start, Delivering(key, steps, env), n) == (store.Now(), true)
      modifies store
      ensures ok ==> Fold(start, Delivering(key, steps, env), n + 1) == (store.Now(), true)
      ensures !ok ==> Deliver(start, key, steps, env) == (store.Now(), false)
    {
      ok := CommitStep(key, s, now, eventId);
      if !ok {
        FoldRefused(start, Delivering(key, steps, env), n + 1, |steps|);
      }
    }

    method CommitStep(key: Key, s: SubStep, now: Time, eventId: string) returns (ok: bool)
      modifies store
      ensures match DeliverOne(old(store.Now()), key, s, now, eventId)
              case None => !ok && store.Now() == old(store.Now())
              case Some(after) => ok && store.Now() == after
    {
      var d := store.ApplyTaskVersion(key, 0, s.dedup, Mutator(s.change, now), eventId);
      return !d.Refuse?;
    }

    method ApplyObservation(key: Key, o: Observation, move: (nat, Artifact) -> Option<Artifact>, env: Env)
      returns (ok: bool)
      modifies store
      ensures match Externalized(o.artifacts, move)
              case None => !ok && store.Now() == old(store.Now())
              case Some(updates) =>
                (store.Now(), ok) ==
                Deliver(old(store.Now()), key, SubSteps(o.(artifacts := updates), BaseKey(o, digest)), env)
    {
      var base := if o.dedupKey != "" then o.dedupKey else "observation:" + digest(o);
      var moved := Externalize(o, move);
      if moved.None? {
        return false;
      }
      ok := ApplyMoved(key, moved.value, base, env);
    }

    method ApplyMoved(key: Key, o: Observation, base: string, env: Env) returns (ok: bool)
      modifies store
      ensures (store.Now(), ok) == Deliver(old(store.Now()), key, SubSteps(o, base), env)
    {
      ghost var start, steps := store.Now(), SubSteps(o, base);
      var done := 0;
      if !o.state.Unknown? || o.remoteTaskId != "" || o.problem.Some? || o.cancelRequested {
        ok := ApplyStep(key, SubStep(base + ":status", ApplyStatus(o)), env.now(0), env.eventId(0), start, steps, env,
                        0);
        if !ok {
          return;
        }
        done := 1;
      }
      ok := ApplyArtifacts(key, o, base, env, done, start);
    }

    /** The artifact updates, after `done` status changes. */
    method ApplyArtifacts(key: Key, o: Observation, base: string, env: Env, done: nat, ghost start: System)
      returns (ok: bool)
      requires done == |StatusSteps(o, base)|
      requires Fold(start, Delivering(key, SubSteps(o, base), env), done) == (store.Now(), true)
      modifies store
      ensures (store.Now(), ok) == Deliver(start, key, SubSteps(o, base), env)
    {
      ghost var steps := SubSteps(o, base);
      var i := 0;
      while i < |o.artifacts|
        invariant 0 <= i <= |o.artifacts| && |steps| == done + |o.artifacts|
        invariant Fold(start, Delivering(key, steps, env), done + i) == (store.Now(), true)
      {
        assert steps[done + i] == ArtifactStep(o, base, i);
        var dedup := base + ":artifact:" + o.artifacts[i].artifact.id + ":" + Decimal(i);
        ok := ApplyStep(key, SubStep(dedup, AddArtifact(o.artifacts[i], o.source)), env.now(done + i),
                        env.eventId(done + i), start, steps, env, done + i);
        if !ok {
          return;
        }
        i := i + 1;
      }
      return true;
    }
  }

  // What is compared: everything about a Task and its log but clocks and event IDs

  datatype View = View(task: Task, events: seq<Event>, dedup: set<string>)

  function Timeless(t: Task): Task {
    t.(updatedAt := ZERO_TIME)
  }

  function Anonymous(e: Event): Event {
    e.(id := "", createdAt := ZERO_TIME)
  }

  function AllAnonymous(events: seq<Event>): seq<Event> {
    seq(|events|, i requires 0 <= i < |events| => Anonymous(events[i]))
  }

  function ViewOf(w: TaskStore, key: Key): View
    requires key in w.tasks
  {
    View(Timeless(w.tasks[key]), AllAnonymous(Get(w.events, key, [])), Get(w.dedupKeys, key, {}))
  }

  function Advance(v: View, s: SubStep): Option<View> {
    if s.dedup in v.dedup then Some(v)
    else
      match Changed(s.change, v.task, ZERO_TIME)
      case None => None
      case Some((changed, draft)) =>
        var task := changed.(revision := changed.revision + 1, lastSequence := changed.lastSequence + 1);
        Some(View(task, v.events + [Stamp(draft, task, s.dedup, "")], v.dedup + {s.dedup}))
  }

  function Advancing(steps: seq<SubStep>): (View, nat) -> Option<View> {
    (v: View, i: nat) => if i < |steps| then Advance(v, steps[i]) else None
  }

  function DeliverViewTo(v: View, steps: seq<SubStep>, n: nat): (View, bool)
    requires n <= |steps|
  {
    Fold(v, Advancing(steps), n)
  }

  function DeliverView(v: View, steps: seq<SubStep>): (View, bool) {
    Fold(v, Advancing(steps), |steps|)
  }

  /** Clocks and event IDs do not steer a change. */
  lemma ChangeIgnoresClock(c: Change, t: Task, now: Time)
    ensures var actual, timeless := Changed(c, t, now), Changed(c, Timeless(t), ZERO_TIME);
            (actual.None? <==> timeless.None?) &&
            (actual.Some? ==> timeless.value == (Timeless(actual.value.0), Anonymous(actual.value.1)))
  {
    match c
    case ApplyStatus(o) =>
    case _ =>
  }

  ghost predicate Healthy(sys: System) {
    Keyed(sys.mem.work) && Refines(Replay(sys.file), sys.mem, sys.pruned)
  }

  lemma HealthyStays(sys: System, op: Op)
    requires Healthy(sys) && ServiceOp(op)
    ensures Healthy(Exec(sys, op))
  {
    ExecRefines(sys, op);
    WorkAfterExec(sys, op);
  }

  lemma ViewAfterEvent(w: TaskStore, task: Task, event: Event)
    ensures var key := task.ResourceKey();
            ViewOf(AddEvent(w, task, event), key) ==
              View(Timeless(task), AllAnonymous(Get(w.events, key, [])) + [Anonymous(event)],
                   Get(w.dedupKeys, key, {}) + {event.dedupKey})
  {
    var events := Get(w.events, task.ResourceKey(), []);
    assert AllAnonymous(events + [event]) == AllAnonymous(events) + [Anonymous(event)];
  }

  /** The Task and the event that a change commits, up to clocks and IDs. */
  lemma CommittedChange(w: TaskStore, key: Key, s: SubStep, now: Time, eventId: string)
    requires key in w.tasks && s.dedup != ""
    ensures var d := DecideApplyTask(w, key, 0, s.dedup, Mutator(s.change, now), eventId);
            d.Commit? ==>
              var changed := Changed(s.change, Timeless(w.tasks[key]), ZERO_TIME);
              changed.Some? &&
              var (t, draft) := changed.value;
              var task := t.(revision := t.revision + 1, lastSequence := t.lastSequence + 1);
              Timeless(d.record.task) == task && d.record.event.dedupKey == s.dedup &&
              Anonymous(d.record.event) == Stamp(draft, task, s.dedup, "")
  {
    ChangeIgnoresClock(s.change, w.tasks[key], now);
  }

  lemma StoreAdvancesView(w: TaskStore, key: Key, s: SubStep, now: Time, eventId: string)
    requires key in w.tasks && w.tasks[key].ResourceKey() == key && s.dedup != ""
    ensures var d := DecideApplyTask(w, key, 0, s.dedup, Mutator(s.change, now), eventId);
            match Advance(ViewOf(w, key), s)
            case None => d.Refuse?
            case Some(v) =>
              if d.Commit? then
                d.record.task.ResourceKey() == key && ViewOf(AddEvent(w, d.record.task, d.record.event), key) == v
              else d.Keep? && v == ViewOf(w, key)
  {
    ChangeIgnoresClock(s.change, w.tasks[key], now);
    ChangesMoveForward(s.change, now);
    var d := DecideApplyTask(w, key, 0, s.dedup, Mutator(s.change, now), eventId);
    if d.Commit? {
      CommittedChange(w, key, s, now, eventId);
      ViewAfterEvent(w, d.record.task, d.record.event);
    }
  }

  /** Every run of the service is healthy. */
  lemma ServiceRunsAreHealthy(ops: seq<Op>)
    requires ServiceRun(ops)
    ensures Healthy(Run(INITIAL, ops))
  {
    ServiceRunsStayKeyed(ops);
    ReplayRestoresMemory(ops);
  }

  lemma OpAdvancesView(sys: System, key: Key, s: SubStep, now: Time, eventId: string)
    requires Healthy(sys) && key in sys.mem.work.tasks && s.dedup != ""
    ensures var op := StepOp(key, s, now, eventId);
            var after := Exec(sys, op).mem.work;
            key in after.tasks && Healthy(Exec(sys, op)) &&
            match Advance(ViewOf(sys.mem.work, key), s)
            case None => Decide(sys.mem, op).Refuse?
            case Some(v) => !Decide(sys.mem, op).Refuse? && ViewOf(after, key) == v
  {
    var op := StepOp(key, s, now, eventId);
    HealthyStays(sys, op);
    WorkAfterExec(sys, op);
    StoreAdvancesView(sys.mem.work, key, s, now, eventId);
  }

  /** The store is healthy and shows the view. */
  ghost predicate Shows(sys: System, key: Key, v: View) {
    Healthy(sys) && key in sys.mem.work.tasks && ViewOf(sys.mem.work, key) == v
  }

  lemma DeliverOneAdvancesView(sys: System, key: Key, s: SubStep, now: Time, eventId: string)
    requires Healthy(sys) && key in sys.mem.work.tasks && s.dedup != ""
    ensures match Advance(ViewOf(sys.mem.work, key), s)
            case None => DeliverOne(sys, key, s, now, eventId).None?
            case Some(v) =>
              DeliverOne(sys, key, s, now, eventId).Some? && Shows(DeliverOne(sys, key, s, now, eventId).value, key, v)
  {
    OpAdvancesView(sys, key, s, now, eventId);
  }

  /** A delivery to the store is a delivery to the view of its Task. */
  lemma DeliveryAdvancesView(sys: System, key: Key, steps: seq<SubStep>, env: Env, n: nat)
    requires Healthy(sys) && key in sys.mem.work.tasks && Named(steps) && n <= |steps|
    ensures var (after, ok) := Fold(sys, Delivering(key, steps, env), n);
            var (view, viewOk) := DeliverViewTo(ViewOf(sys.mem.work, key), steps, n);
            Shows(after, key, view) && ok == viewOk
  {
    var f, g := Delivering(key, steps, env), Advancing(steps);
    forall a: System, b: View, k | 0 <= k < n && Shows(a, key, b)
      ensures (f(a, k).None? <==> g(b, k).None?) && (f(a, k).Some? ==> Shows(f(a, k).value, key, g(b, k).value))
    {
      DeliverOneAdvancesView(a, key, steps[k], env.now(k), env.eventId(k));
    }
    FoldSimulates(sys, f, ViewOf(sys.mem.work, key), g, n, (a: System, b: View) => Shows(a, key, b));
  }

  // Redelivery

  lemma {:induction false} DeliveredKeysRecorded(v: View, steps: seq<SubStep>, n: nat)
    requires n <= |steps| && DeliverViewTo(v, steps, n).1
    ensures forall i :: 0 <= i < n ==> steps[i].dedup in DeliverViewTo(v, steps, n).0.dedup
  {
    if n > 0 {
      DeliveredKeysRecorded(v, steps, n - 1);
    }
  }

  lemma {:induction false} RecordedStepsAreSkipped(v: View, steps: seq<SubStep>, n: nat)
    requires n <= |steps| && forall i :: 0 <= i < n ==> steps[i].dedup in v.dedup
    ensures DeliverViewTo(v, steps, n) == (v, true)
  {
    if n > 0 {
      RecordedStepsAreSkipped(v, steps, n - 1);
    }
  }

  /** After n sub-steps went through, delivering m or more of them does what remains. */
  lemma {:induction false} ResumeAfter(v: View, steps: seq<SubStep>, n: nat, m: nat)
    requires n <= m <= |steps| && DeliverViewTo(v, steps, n).1
    ensures DeliverViewTo(DeliverViewTo(v, steps, n).0, steps, m) == DeliverViewTo(v, steps, m)
    decreases m
  {
    if n == m {
      DeliveredKeysRecorded(v, steps, n);
      RecordedStepsAreSkipped(DeliverViewTo(v, steps, n).0, steps, n);
    } else {
      ResumeAfter(v, steps, n, m - 1);
    }
  }

  lemma {:induction false} RefusalPoint(v: View, steps: seq<SubStep>, n: nat) returns (m: nat)
    requires n <= |steps| && !DeliverViewTo(v, steps, n).1
    ensures m < n && DeliverViewTo(v, steps, m) == (DeliverViewTo(v, steps, n).0, true)
  {
    m := n - 1;
    if !DeliverViewTo(v, steps, n - 1).1 {
      m := RefusalPoint(v, steps, n - 1);
    }
  }

  /** However far an earlier delivery came, delivering again ends where one delivery would have. */
  lemma RedeliverView(v: View, steps: seq<SubStep>, n: nat)
    requires n <= |steps|
    ensures DeliverView(DeliverViewTo(v, steps, n).0, steps) == DeliverView(v, steps)
  {
    if DeliverViewTo(v, steps, n).1 {
      ResumeAfter(v, steps, n, |steps|);
    } else {
      var m := RefusalPoint(v, steps, n);
      ResumeAfter(v, steps, m, |steps|);
    }
  }

  /** A delivery cut off after n sub-steps, and what else the store did before the next one. */
  datatype Attempt = Attempt(env: Env, n: nat, between: seq<Op>)

  /** Anything but a change to this Task: other Tasks, leases, queues, artifacts, or a restart. */
  ghost predicate Elsewhere(op: Op, key: Key) {
    ServiceOp(op) && (op.ApplyTask? ==> op.key != key)
  }

  ghost predicate CutOff(a: Attempt, key: Key, steps: seq<SubStep>) {
    a.n <= |steps| && forall op :: op in a.between ==> Elsewhere(op, key)
  }

  function AfterAttempt(sys: System, key: Key, steps: seq<SubStep>, a: Attempt): System {
    Run(Fold(sys, Delivering(key, steps, a.env), a.n).0, a.between)
  }

  /** The first n attempts, one after the other. */
  function AfterAttempts(sys: System, key: Key, steps: seq<SubStep>, attempts: seq<Attempt>, n: nat): System
    requires n <= |attempts|
  {
    if n == 0 then sys
    else AfterAttempt(AfterAttempts(sys, key, steps, attempts, n - 1), key, steps, attempts[n - 1])
  }

  lemma {:induction false} ElsewhereKeepsView(sys: System, ops: seq<Op>, key: Key)
    requires Healthy(sys) && key in sys.mem.work.tasks && forall op :: op in ops ==> Elsewhere(op, key)
    ensures var after := Run(sys, ops);
            Healthy(after) && key in after.mem.work.tasks && ViewOf(after.mem.work, key) == ViewOf(sys.mem.work, key)
  {
    if ops != [] {
      var n := |ops| - 1;
      ElsewhereKeepsView(sys, ops[..n], key);
      assert ops[n] in ops;
      HealthyStays(Run(sys, ops[..n]), ops[n]);
      ElsewhereKeepsTask(Run(sys, ops[..n]), ops[n], key);
    }
  }

  lemma ElsewhereKeepsTask(sys: System, op: Op, key: Key)
    requires Healthy(sys) && key in sys.mem.work.tasks && Elsewhere(op, key)
    ensures var after := Exec(sys, op).mem.work;
            key in after.tasks && ViewOf(after, key) == ViewOf(sys.mem.work, key)
  {
    WorkAfterExec(sys, op);
    if op.ApplyTask? && Decide(sys.mem, op).Commit? {
      ServiceOpKeepsKey(sys.mem.work, op);
    }
  }

  lemma ServiceOpKeepsKey(w: TaskStore, op: Op)
    requires Keyed(w) && op.ApplyTask? && ServiceOp(op)
    ensures var d := DecideApplyTask(w, op.key, op.expected, op.dedup, op.mutate, op.eventId);
            d.Commit? ==> d.record.task.ResourceKey() == op.key
  {
    var c, now :| op.mutate == Mutator(c, now);
    ChangesMoveForward(c, now);
  }

  /** Between the two, nothing that a delivery still has to add has been lost. */
  ghost predicate NothingLost(sys: System, after: System, key: Key, steps: seq<SubStep>) {
    Healthy(after) && key in sys.mem.work.tasks && key in after.mem.work.tasks &&
    DeliverView(ViewOf(after.mem.work, key), steps) == DeliverView(ViewOf(sys.mem.work, key), steps)
  }

  lemma {:induction false} AttemptsLoseNothing(sys: System, key: Key, steps: seq<SubStep>, attempts: seq<Attempt>,
                                               n: nat)
    requires Healthy(sys) && key in sys.mem.work.tasks && Named(steps) && n <= |attempts|
    requires forall i :: 0 <= i < |attempts| ==> CutOff(attempts[i], key, steps)
    ensures NothingLost(sys, AfterAttempts(sys, key, steps, attempts, n), key, steps)
  {
    if n > 0 {
      AttemptsLoseNothing(sys, key, steps, attempts, n - 1);
      NextAttempt(sys, AfterAttempts(sys, key, steps, attempts, n - 1), key, steps, attempts[n - 1]);
    }
  }

  lemma NextAttempt(sys: System, before: System, key: Key, steps: seq<SubStep>, a: Attempt)
    requires NothingLost(sys, before, key, steps) && Named(steps) && CutOff(a, key, steps)
    ensures NothingLost(sys, AfterAttempt(before, key, steps, a), key, steps)
  {
    AttemptLosesNothing(before, key, steps, a);
  }

  lemma AttemptLosesNothing(sys: System, key: Key, steps: seq<SubStep>, a: Attempt)
    requires Healthy(sys) && key in sys.mem.work.tasks && Named(steps) && CutOff(a, key, steps)
    ensures var after := AfterAttempt(sys, key, steps, a);
            Healthy(after) && key in after.mem.work.tasks &&
            DeliverView(ViewOf(after.mem.work, key), steps) == DeliverView(ViewOf(sys.mem.work, key), steps)
  {
    DeliveryAdvancesView(sys, key, steps, a.env, a.n);
    RedeliverView(ViewOf(sys.mem.work, key), steps, a.n);
    ElsewhereKeepsView(Fold(sys, Delivering(key, steps, a.env), a.n).0, a.between, key);
  }

  /**
   Redelivery is exactly-once in effect: after any number of deliveries, each cut off anywhere and followed by
   a restart or anything else that leaves this Task alone, one more delivery ends with the same Task, the same
   events and the same keys as a single uninterrupted delivery, and is accepted or refused alike.
   */
  lemma RedeliveryIsExactlyOnce(sys: System, key: Key, o: Observation, base: string, attempts: seq<Attempt>,
                                again: Env, once: Env)
    requires Healthy(sys) && key in sys.mem.work.tasks
    requires forall i :: 0 <= i < |attempts| ==> CutOff(attempts[i], key, SubSteps(o, base))
    ensures var steps := SubSteps(o, base);
            var (x, ok) := Deliver(AfterAttempts(sys, key, steps, attempts, |attempts|), key, steps, again);
            var (y, okOnce) := Deliver(sys, key, steps, once);
            key in x.mem.work.tasks && key in y.mem.work.tasks &&
            ViewOf(x.mem.work, key) == ViewOf(y.mem.work, key) && ok == okOnce
  {
    var steps := SubSteps(o, base);
    SubStepKeysDistinct(o, base);
    AttemptsLoseNothing(sys, key, steps, attempts, |attempts|);
    DeliveryAdvancesView(AfterAttempts(sys, key, steps, attempts, |attempts|), key, steps, again, |steps|);
    DeliveryAdvancesView(sys, key, steps, once, |steps|);
  }

  /** So it is after every run of the service, for every Task there is. */
  lemma RedeliveryAfterAnyRun(ops: seq<Op>, key: Key, o: Observation, base: string, attempts: seq<Attempt>,
                              again: Env, once: Env)
    requires ServiceRun(ops) && key in Run(INITIAL, ops).mem.work.tasks
    requires forall i :: 0 <= i < |attempts| ==> CutOff(attempts[i], key, SubSteps(o, base))
    ensures var sys, steps := Run(INITIAL, ops), SubSteps(o, base);
            var (x, ok) := Deliver(AfterAttempts(sys, key, steps, attempts, |attempts|), key, steps, again);
            var (y, okOnce) := Deliver(sys, key, steps, once);
            key in x.mem.work.tasks && key in y.mem.work.tasks &&
            ViewOf(x.mem.work, key) == ViewOf(y.mem.work, key) && ok == okOnce
  {
    ServiceRunsAreHealthy(ops);
    RedeliveryIsExactlyOnce(Run(INITIAL, ops), key, o, base, attempts, again, once);
  }

  /** The keys of the first n sub-steps. */
  function KeysTo(steps: seq<SubStep>, n: nat): set<string>
    requires n <= |steps|
  {
    set i | 0 <= i < n :: steps[i].dedup
  }

  /** A first delivery adds exactly one event for each sub-step, in order. */
  lemma {:induction false} FirstDeliveryAddsOneEventEach(v: View, steps: seq<SubStep>, n: nat)
    requires n <= |steps| && DistinctKeys(steps) && Named(steps) && DeliverViewTo(v, steps, n).1
    requires forall i :: 0 <= i < |steps| ==> steps[i].dedup !in v.dedup
    ensures var after := DeliverViewTo(v, steps, n).0;
            |after.events| == |v.events| + n && after.dedup == v.dedup + KeysTo(steps, n) &&
            forall j :: 0 <= j < |after.events| ==>
              if j < |v.events| then after.events[j] == v.events[j]
              else after.events[j].dedupKey == steps[j - |v.events|].dedup
  {
    if n > 0 {
      FirstDeliveryAddsOneEventEach(v, steps, n - 1);
      assert KeysTo(steps, n) == KeysTo(steps, n - 1) + {steps[n - 1].dedup};
    }
  }

  // Redelivery after everything went through, whatever happened since

  lemma OneOpKeepsKeys(sys: System, op: Op, key: Key)
    requires Healthy(sys)
    ensures Get(sys.mem.work.dedupKeys, key, {}) <= Get(Exec(sys, op).mem.work.dedupKeys, key, {})
    ensures key in sys.mem.work.tasks ==> key in Exec(sys, op).mem.work.tasks
  {
    WorkAfterExec(sys, op);
  }

  lemma {:induction false} KeysAreKept(sys: System, ops: seq<Op>, key: Key)
    requires Healthy(sys) && ServiceRun(ops) && key in sys.mem.work.tasks
    ensures var after := Run(sys, ops);
            Healthy(after) && key in after.mem.work.tasks &&
            Get(sys.mem.work.dedupKeys, key, {}) <= Get(after.mem.work.dedupKeys, key, {})
  {
    if ops != [] {
      var n := |ops| - 1;
      KeysAreKept(sys, ops[..n], key);
      OneOpKeepsKeys(Run(sys, ops[..n]), ops[n], key);
      HealthyStays(Run(sys, ops[..n]), ops[n]);
    }
  }

  lemma RecordedStepIsKept(sys: System, key: Key, s: SubStep, now: Time, eventId: string)
    requires key in sys.mem.work.tasks && s.dedup != "" && s.dedup in Get(sys.mem.work.dedupKeys, key, {})
    ensures DeliverOne(sys, key, s, now, eventId) == Some(sys)
  {
  }

  lemma RecordedStepsChangeNothing(sys: System, key: Key, steps: seq<SubStep>, env: Env)
    requires key in sys.mem.work.tasks && Named(steps)
    requires forall i :: 0 <= i < |steps| ==> steps[i].dedup in Get(sys.mem.work.dedupKeys, key, {})
    ensures Deliver(sys, key, steps, env) == (sys, true)
  {
    forall k | 0 <= k < |steps| ensures Delivering(key, steps, env)(sys, k) == Some(sys) {
      RecordedStepIsKept(sys, key, steps[k], env.now(k), env.eventId(k));
    }
    FoldFixed(sys, Delivering(key, steps, env), |steps|);
  }

  /**
   Once an observation went through, delivering it again is accepted and changes nothing at all, in memory
   or on file, whatever the service has done in between, to this Task or any other.
   */
  lemma CompletedDeliveryIsInert(sys: System, key: Key, o: Observation, base: string, env: Env, between: seq<Op>,
                                 again: Env)
    requires Healthy(sys) && key in sys.mem.work.tasks && ServiceRun(between)
    requires Deliver(sys, key, SubSteps(o, base), env).1
    ensures var later := Run(Deliver(sys, key, SubSteps(o, base), env).0, between);
            Deliver(later, key, SubSteps(o, base), again) == (later, true)
  {
    var steps := SubSteps(o, base);
    SubStepKeysDistinct(o, base);
    DeliveryAdvancesView(sys, key, steps, env, |steps|);
    DeliveredKeysRecorded(ViewOf(sys.mem.work, key), steps, |steps|);
    var done := Deliver(sys, key, steps, env).0;
    KeysAreKept(done, between, key);
    RecordedStepsChangeNothing(Run(done, between), key, steps, again);
  }
}
