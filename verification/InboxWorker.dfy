/**
 The inbox worker (internal/worker/inbox.go, RunOnce): what it does with a batch, and that this is a legal run of
 InboxDelivery's world, so that what it acknowledges was applied.
 */
module InboxWorker {
  import opened Wrappers
  import opened Model
  import opened Journal
  import opened JournalOps
  import opened JournalRefinement
  import opened JournalStoreImpl
  import opened BatchClaims
  import opened EventLog
  import opened ObservationProtocol
  import opened InboxDelivery
  import opened Worlds
  import opened Folds
  import opened Ordering
  import opened Backoff

  /** The clock and IDs one item's processing meets, and the time at which its retry is scheduled. */
  datatype ItemEnv = ItemEnv(env: Env, now: Time)

  function AnswerOp(lease: InboxLease, ok: bool, now: Time, b: Backoffs): Op {
    InboxCall(if ok then AckInbox(lease.item.id, lease.owner)
              else RetryInbox(lease.item.id, lease.owner, now + Delay(lease.attempt, b.base, b.maximum)))
  }

  /** Applies a claimed item, then acknowledges it or schedules its retry. */
  function Process(sys: System, lease: InboxLease, s: Setting, e: ItemEnv, b: Backoffs): System {
    var (applied, ok) := ApplyItem(sys, lease.item, s.digest, s.move, e.env);
    Exec(applied, AnswerOp(lease, ok, e.now, b))
  }

  function Processing(leases: seq<InboxLease>, s: Setting, envs: nat -> ItemEnv, b: Backoffs)
    : (System, nat) -> Option<System>
  {
    (sys: System, i: nat) => if i < |leases| then Some(Process(sys, leases[i], s, envs(i), b)) else None
  }

  /** Processes the first n leases. */
  function ProcessTo(sys: System, leases: seq<InboxLease>, n: nat, s: Setting, envs: nat -> ItemEnv,
                     b: Backoffs): System {
    Fold(sys, Processing(leases, s, envs, b), n).0
  }

  class InboxProcessor {
    const service: Service
    const workerId: string
    const batchSize: int
    const leaseDuration: int
    const backoffs: Backoffs

    constructor (service: Service, workerId: string, batchSize: int, leaseDuration: int, backoffs: Backoffs)
      requires backoffs.base > 0 && backoffs.maximum > 0
      ensures this.service == service && this.workerId == workerId
      ensures this.batchSize == (if batchSize > 0 then batchSize else 32)
      ensures this.leaseDuration == (if leaseDuration > 0 then leaseDuration else 30_000_000_000)
      ensures this.backoffs == backoffs
    {
      this.service, this.workerId, this.backoffs := service, workerId, backoffs;
      this.batchSize := if batchSize > 0 then batchSize else 32;
      this.leaseDuration := if leaseDuration > 0 then leaseDuration else 30_000_000_000;
    }

    function SettingFor(move: (nat, Artifact) -> Option<Artifact>): Setting {
      Setting(service.digest, move)
    }

    method ProcessLease(lease: InboxLease, move: (nat, Artifact) -> Option<Artifact>, e: ItemEnv)
      requires backoffs.base > 0 && backoffs.maximum > 0
      modifies service.store
      ensures service.store.Now() == Process(old(service.store.Now()), lease, SettingFor(move), e, backoffs)
    {
      var ok := service.ApplyInboxItem(lease.item, move, e.env);
      if !ok {
        var delay := BoundedBackoff(lease.attempt, backoffs.base, backoffs.maximum);
        var _ := service.store.RetryInboxLease(lease.item.id, lease.owner, e.now + delay);
        return;
      }
      var _ := service.store.AckInboxLease(lease.item.id, lease.owner);
    }

    method ProcessLeases(leases: seq<InboxLease>, move: (nat, Artifact) -> Option<Artifact>, envs: nat -> ItemEnv)
      requires backoffs.base > 0 && backoffs.maximum > 0
      modifies service.store
      ensures service.store.Now() ==
              ProcessTo(old(service.store.Now()), leases, |leases|, SettingFor(move), envs, backoffs)
    {
      ghost var start := service.store.Now();
      var i := 0;
      while i < |leases|
        invariant 0 <= i <= |leases|
        invariant Fold(start, Processing(leases, SettingFor(move), envs, backoffs), i) == (service.store.Now(), true)
      {
        ProcessLease(leases[i], move, envs(i));
        i := i + 1;
      }
    }

    /** Claims a batch and processes every lease of it; nothing is claimed while the gate is shut. */
    method RunOnce(open: bool, now: Time, move: (nat, Artifact) -> Option<Artifact>, envs: nat -> ItemEnv)
      returns (ok: bool, ghost keys: seq<string>, ghost leases: seq<InboxLease>)
      requires backoffs.base > 0 && backoffs.maximum > 0 && batchSize > 0 && leaseDuration > 0
      modifies service.store
      ensures ok <==> workerId != "" && open
      ensures !ok ==> service.store.Now() == old(service.store.Now())
      ensures ok ==> Selection(keys, old(InboxCandidates(service.store.inbox, now)), IdRank, batchSize)
      ensures ok ==> Leased(keys, old(Claimant(workerId, now, leaseDuration).InboxLeases(service.store.inbox)), leases)
      ensures ok ==>
                service.store.Now() ==
                ProcessTo(Run(old(service.store.Now()), Claimant(workerId, now, leaseDuration).Inboxes(keys)),
                          leases, |leases|, SettingFor(move), envs, backoffs)
    {
      keys, leases := [], [];
      if workerId == "" || !open {
        return false, keys, leases;
      }
      var claimedKeys, claimed;
      ok, claimedKeys, claimed := service.store.ClaimInboxItems(workerId, batchSize, now, leaseDuration);
      keys, leases := claimedKeys, claimed;
      ProcessLeases(claimed, move, envs);
    }
  }

  // One item

  /** Every event ID is new when its sub-step is committed. */
  ghost predicate FreshIds(sys: System, key: Key, steps: seq<SubStep>, env: Env) {
    forall k :: 0 <= k < |steps| ==> FreshId(Fold(sys, Delivering(key, steps, env), k).0.mem, env.eventId(k))
  }

  lemma CommitIsLegal(w: World, h: Hand, key: Key, step: SubStep, now: Time, eventId: string, after: System, s: Setting)
    requires h in w.progress && h.item in w.sys.mem.inbox.items && s.Steps(w.sys.mem.inbox.items[h.item]).Some?
    requires w.progress[h] < |s.Steps(w.sys.mem.inbox.items[h.item]).value| && FreshId(w.sys.mem, eventId)
    requires step == s.Steps(w.sys.mem.inbox.items[h.item]).value[w.progress[h]]
    requires key == TaskKeyOf(w.sys.mem.inbox.items[h.item]) &&
             DeliverOne(w.sys, key, step, now, eventId) == Some(after)
    ensures Steps(s)(w, CommitSubStep(h, now, eventId)) == Some(World(after, w.progress[h := w.progress[h] + 1]))
  {
    var commit := CommitSubStep(h, now, eventId);
    assert OpOf(w, commit, s) == Some(StepOp(key, step, now, eventId));
    assert Perform(w.sys, OpOf(w, commit, s)) == after;
  }

  /** The store as a delivery passed through it: each sub-step committed, with a new event ID, and no item touched. */
  ghost predicate Passed(trail: seq<System>, sys: System, key: Key, steps: seq<SubStep>, env: Env) {
    Trail(trail, sys, Delivering(key, steps, env)) &&
    forall k :: 0 <= k < |trail| ==>
      trail[k].mem.inbox == sys.mem.inbox && (k < |steps| ==> FreshId(trail[k].mem, env.eventId(k)))
  }

  lemma StepKeepsInbox(sys: System, key: Key, step: SubStep, now: Time, eventId: string)
    requires DeliverOne(sys, key, step, now, eventId).Some?
    ensures DeliverOne(sys, key, step, now, eventId).value.mem.inbox == sys.mem.inbox
  {
    InboxAfterExec(sys, StepOp(key, step, now, eventId));
  }

  lemma {:induction false} TrailKeepsInbox(trail: seq<System>, sys: System, key: Key, steps: seq<SubStep>, env: Env,
                                           k: nat)
    requires Trail(trail, sys, Delivering(key, steps, env)) && k < |trail|
    ensures trail[k].mem.inbox == sys.mem.inbox
  {
    if k > 0 {
      TrailKeepsInbox(trail, sys, key, steps, env, k - 1);
      assert Delivering(key, steps, env)(trail[k - 1], k - 1) == Some(trail[k]);
      StepKeepsInbox(trail[k - 1], key, steps[k - 1], env.now(k - 1), env.eventId(k - 1));
    }
  }

  /** The item in hand can be applied, and these are its sub-steps. */
  ghost predicate Takes(w: World, h: Hand, key: Key, steps: seq<SubStep>, s: Setting) {
    h.item in w.sys.mem.inbox.items && s.Steps(w.sys.mem.inbox.items[h.item]) == Some(steps) &&
    Applicable(w.sys.mem.work, w.sys.mem.inbox.items[h.item]) && key == TaskKeyOf(w.sys.mem.inbox.items[h.item])
  }

  /** A delivery is a legal run of the world, as far as it goes. */
  lemma {:induction false} DeliveryReaches(w: World, h: Hand, trail: seq<System>, key: Key, steps: seq<SubStep>,
                                           env: Env, n: nat, s: Setting)
    requires Takes(w, h, key, steps, s) && Passed(trail, w.sys, key, steps, env) && n < |trail|
    ensures Reaches(w, World(trail[n], w.progress[h := n]), Steps(s))
    decreases n
  {
    if n == 0 {
      ReachesItself(w, Steps(s));
      StepReaches(w, w, Begin(h), World(w.sys, w.progress[h := 0]), Steps(s));
    } else {
      DeliveryReaches(w, h, trail, key, steps, env, n - 1, s);
      assert Delivering(key, steps, env)(trail[n - 1], n - 1) == Some(trail[n]);
      CommitReaches(w, h, key, steps, env, n, trail[n - 1], trail[n], s);
    }
  }

  lemma CommitReaches(w: World, h: Hand, key: Key, steps: seq<SubStep>, env: Env, n: nat, before: System, after: System,
                      s: Setting)
    requires 0 < n <= |steps| && Takes(w, h, key, steps, s) && before.mem.inbox == w.sys.mem.inbox
    requires Reaches(w, World(before, w.progress[h := n - 1]), Steps(s)) && FreshId(before.mem, env.eventId(n - 1))
    requires DeliverOne(before, key, steps[n - 1], env.now(n - 1), env.eventId(n - 1)) == Some(after)
    ensures Reaches(w, World(after, w.progress[h := n]), Steps(s))
  {
    var v := World(before, w.progress[h := n - 1]);
    CommitIsLegal(v, h, key, steps[n - 1], env.now(n - 1), env.eventId(n - 1), after, s);
    assert v.progress[h := n] == w.progress[h := n];
    StepReaches(w, v, CommitSubStep(h, env.now(n - 1), env.eventId(n - 1)), World(after, w.progress[h := n]), Steps(s));
  }

  /** The lease's item is the stored one. */
  ghost predicate Stored(items: map<string, InboxItem>, lease: InboxLease) {
    lease.item.id in items && items[lease.item.id] == lease.item
  }

  /** The item's sub-steps meet new event IDs. */
  ghost predicate Fresh(sys: System, lease: InboxLease, s: Setting, e: ItemEnv) {
    s.Steps(lease.item).Some? ==> FreshIds(sys, TaskKeyOf(lease.item), s.Steps(lease.item).value, e.env)
  }

  ghost predicate Ready(sys: System, lease: InboxLease, s: Setting, e: ItemEnv) {
    Stored(sys.mem.inbox.items, lease) && Fresh(sys, lease, s, e)
  }

  /**
   What a worker does with one claimed item is a legal run of the world, whether the delivery succeeds, is
   refused part-way, or the item cannot be applied at all: so the items it acknowledges were applied.
   */
  lemma ProcessIsLegal(start: World, w: World, lease: InboxLease, s: Setting, e: ItemEnv, b: Backoffs)
    returns (v: World)
    requires Reaches(start, w, Steps(s)) && Ready(w.sys, lease, s, e)
    ensures Reaches(start, v, Steps(s)) && v.sys == Process(w.sys, lease, s, e, b)
    ensures v.sys.mem.inbox.items == w.sys.mem.inbox.items
  {
    if s.Steps(lease.item).None? || !Applicable(w.sys.mem.work, lease.item) {
      v := AnswerReaches(start, w, lease, false, s, e, b);
    } else {
      v := DeliveredReaches(start, w, lease, s.Steps(lease.item).value, s, e, b);
    }
  }

  lemma TrailIsPassed(trail: seq<System>, sys: System, key: Key, steps: seq<SubStep>, env: Env)
    requires Trail(trail, sys, Delivering(key, steps, env)) && FreshIds(sys, key, steps, env)
    requires forall k :: 0 <= k < |trail| ==> Fold(sys, Delivering(key, steps, env), k) == (trail[k], true)
    ensures Passed(trail, sys, key, steps, env)
  {
    forall k | 0 <= k < |trail|
      ensures trail[k].mem.inbox == sys.mem.inbox && (k < |steps| ==> FreshId(trail[k].mem, env.eventId(k)))
    {
      TrailKeepsInbox(trail, sys, key, steps, env, k);
      assert Fold(sys, Delivering(key, steps, env), k).0 == trail[k];
    }
  }

  lemma DeliveredReaches(start: World, w: World, lease: InboxLease, steps: seq<SubStep>, s: Setting, e: ItemEnv,
                         b: Backoffs)
    returns (v: World)
    requires Reaches(start, w, Steps(s)) && Ready(w.sys, lease, s, e)
    requires s.Steps(lease.item) == Some(steps) && Applicable(w.sys.mem.work, lease.item)
    ensures Reaches(start, v, Steps(s)) && v.sys == Process(w.sys, lease, s, e, b)
    ensures v.sys.mem.inbox.items == w.sys.mem.inbox.items
  {
    var key, h := TaskKeyOf(lease.item), Hand(lease.owner, lease.item.id);
    var trail := FoldTrail(w.sys, Delivering(key, steps, e.env), |steps|);
    TrailIsPassed(trail, w.sys, key, steps, e.env);
    var n := |trail| - 1;
    DeliveryReaches(w, h, trail, key, steps, e.env, n, s);
    var delivered := World(trail[n], w.progress[h := n]);
    ReachesTransitively(start, w, delivered, Steps(s));
    v := AnswerReaches(start, delivered, lease, n == |steps|, s, e, b);
  }

  /** Acknowledging after the last sub-step, or scheduling a retry, is one more legal step. */
  lemma AnswerReaches(start: World, w: World, lease: InboxLease, ok: bool, s: Setting, e: ItemEnv, b: Backoffs)
    returns (v: World)
    requires Reaches(start, w, Steps(s))
    requires lease.item.id in w.sys.mem.inbox.items && w.sys.mem.inbox.items[lease.item.id] == lease.item
    requires var h := Hand(lease.owner, lease.item.id);
             ok ==> s.Steps(lease.item).Some? && h in w.progress && w.progress[h] == |s.Steps(lease.item).value|
    ensures Reaches(start, v, Steps(s)) && v.sys == Exec(w.sys, AnswerOp(lease, ok, e.now, b))
    ensures v.sys.mem.inbox.items == w.sys.mem.inbox.items
  {
    var answered := if ok then Ack(Hand(lease.owner, lease.item.id)) else Client(AnswerOp(lease, ok, e.now, b));
    v := Next(w, answered, s);
    StepReaches(start, w, answered, v, Steps(s));
    InboxAfterExec(w.sys, AnswerOp(lease, ok, e.now, b));
  }

  // A whole batch

  lemma OneClaimIsLegal(start: World, w: World, op: Op, s: Setting)
    requires Reaches(start, w, Steps(s)) && op.InboxCall? && op.inbox.ClaimInbox?
    ensures Reaches(start, World(Exec(w.sys, op), w.progress), Steps(s))
    ensures Exec(w.sys, op).mem.inbox.items == w.sys.mem.inbox.items
  {
    StepReaches(start, w, Client(op), World(Exec(w.sys, op), w.progress), Steps(s));
    InboxAfterExec(w.sys, op);
  }

  lemma {:induction false} ClaimsAreLegal(w: World, ops: seq<Op>, trail: seq<System>, n: nat, s: Setting)
    requires Passes(w.sys, ops, trail) && n <= |ops|
    requires forall i :: 0 <= i < |ops| ==> ops[i].InboxCall? && ops[i].inbox.ClaimInbox?
    ensures Reaches(w, World(trail[n], w.progress), Steps(s))
    ensures trail[n].mem.inbox.items == w.sys.mem.inbox.items
  {
    if n == 0 {
      ReachesItself(w, Steps(s));
    } else {
      ClaimsAreLegal(w, ops, trail, n - 1, s);
      OneClaimIsLegal(w, World(trail[n - 1], w.progress), ops[n - 1], s);
    }
  }

  /** Event IDs are new when their sub-steps are committed, in every lease's turn. */
  ghost predicate AllFresh(sys: System, leases: seq<InboxLease>, s: Setting, envs: nat -> ItemEnv, b: Backoffs) {
    forall i :: 0 <= i < |leases| ==> Fresh(ProcessTo(sys, leases, i, s, envs, b), leases[i], s, envs(i))
  }

  lemma {:induction false} BatchIsLegal(start: World, w: World, leases: seq<InboxLease>, trail: seq<System>, n: nat,
                                        s: Setting, envs: nat -> ItemEnv, b: Backoffs) returns (v: World)
    requires Reaches(start, w, Steps(s)) && n < |trail| <= |leases| + 1
    requires Trail(trail, w.sys, Processing(leases, s, envs, b))
    requires forall i :: 0 <= i < |leases| ==> Stored(w.sys.mem.inbox.items, leases[i])
    requires forall i :: 0 <= i < |trail| - 1 ==> Fresh(trail[i], leases[i], s, envs(i))
    ensures Reaches(start, v, Steps(s)) && v.sys == trail[n]
    ensures v.sys.mem.inbox.items == w.sys.mem.inbox.items
  {
    if n == 0 {
      v := w;
    } else {
      var before := BatchIsLegal(start, w, leases, trail, n - 1, s, envs, b);
      assert Processing(leases, s, envs, b)(trail[n - 1], n - 1) == Some(trail[n]);
      v := ProcessIsLegal(start, before, leases[n - 1], s, envs(n - 1), b);
    }
  }

  lemma BatchTrail(sys: System, leases: seq<InboxLease>, s: Setting, envs: nat -> ItemEnv, b: Backoffs)
    returns (trail: seq<System>)
    requires AllFresh(sys, leases, s, envs, b)
    ensures Trail(trail, sys, Processing(leases, s, envs, b)) && |trail| == |leases| + 1
    ensures trail[|leases|] == ProcessTo(sys, leases, |leases|, s, envs, b)
    ensures forall i :: 0 <= i < |leases| ==> Fresh(trail[i], leases[i], s, envs(i))
  {
    var f := Processing(leases, s, envs, b);
    FoldNeverRefused(sys, f, |leases|);
    trail := FoldTrail(sys, f, |leases|);
    forall i | 0 <= i < |leases| ensures Fresh(trail[i], leases[i], s, envs(i)) {
      assert Fold(sys, f, i).0 == trail[i];
    }
  }

  // Items are stored under their own IDs

  ghost predicate ItemsKeyed(i: InboxStore) {
    forall id :: id in i.items ==> i.items[id].id == id
  }

  ghost predicate SystemKeyed(sys: System) {
    ItemsKeyed(sys.mem.inbox) && Refines(Replay(sys.file), sys.mem, sys.pruned)
  }

  lemma InboxOpKeepsKeyed(i: InboxStore, op: InboxOp)
    requires ItemsKeyed(i) && DecideInbox(i, op).Commit?
    ensures ItemsKeyed(InboxAfter(i, DecideInbox(i, op).record))
  {
  }

  lemma OpKeepsKeyed(sys: System, op: Op)
    requires SystemKeyed(sys)
    ensures SystemKeyed(Exec(sys, op))
  {
    ExecRefines(sys, op);
    InboxAfterExec(sys, op);
    if op.InboxCall? && DecideInbox(sys.mem.inbox, op.inbox).Commit? {
      InboxOpKeepsKeyed(sys.mem.inbox, op.inbox);
    }
  }

  lemma ReachableIsKeyed(w: World, s: Setting)
    requires Reaches(START, w, Steps(s))
    ensures ItemsKeyed(w.sys.mem.inbox)
  {
    forall a: World, step | SystemKeyed(a.sys) && Legal(a, step, s) ensures SystemKeyed(Next(a, step, s).sys) {
      if OpOf(a, step, s).Some? {
        OpKeepsKeyed(a.sys, OpOf(a, step, s).value);
      }
    }
    ReachableKeeps(START, w, Steps(s), (a: World) => SystemKeyed(a.sys));
  }

  /**
   A whole round of the worker, from the claims to the last answer, is a legal run of the world: whatever the batch
   that RunOnce claims, and whatever becomes of its items. So every item that is acknowledged then was applied.
   */
  lemma RunOnceIsLegal(w: World, keys: seq<string>, leases: seq<InboxLease>, c: Claimant, s: Setting,
                       envs: nat -> ItemEnv, b: Backoffs) returns (v: World)
    requires Reaches(START, w, Steps(s)) && Leased(keys, c.InboxLeases(w.sys.mem.inbox), leases)
    requires AllFresh(Run(w.sys, c.Inboxes(keys)), leases, s, envs, b)
    ensures Reaches(START, v, Steps(s))
    ensures v.sys == ProcessTo(Run(w.sys, c.Inboxes(keys)), leases, |leases|, s, envs, b)
    ensures forall id :: Acked(v.sys.mem, id) ==> Applied(v.sys.mem, id, s)
  {
    var ops := c.Inboxes(keys);
    var claims := RunTrail(w.sys, ops);
    ClaimsAreLegal(w, ops, claims, |ops|, s);
    var claimed := World(claims[|ops|], w.progress);
    LeasesAreStored(w, keys, leases, c, s);
    ReachesTransitively(START, w, claimed, Steps(s));
    var trail := BatchTrail(claims[|ops|], leases, s, envs, b);
    v := BatchIsLegal(START, claimed, leases, trail, |leases|, s, envs, b);
    ReachableIsGood(v, s);
  }

  lemma LeasesAreStored(w: World, keys: seq<string>, leases: seq<InboxLease>, c: Claimant, s: Setting)
    requires Reaches(START, w, Steps(s)) && Leased(keys, c.InboxLeases(w.sys.mem.inbox), leases)
    ensures forall i :: 0 <= i < |leases| ==> Stored(w.sys.mem.inbox.items, leases[i])
  {
    ReachableIsKeyed(w, s);
    forall i | 0 <= i < |leases| ensures Stored(w.sys.mem.inbox.items, leases[i]) {
      assert c.InboxLeases(w.sys.mem.inbox)(keys[i]) == Some(leases[i]);
    }
  }
}
