/**
 What becomes of every item of a batch (internal/worker/inbox.go, RunOnce): it is acknowledged exactly if it could be
 applied in its turn, and otherwise free again, and not to be claimed before its retry time.
 */
module InboxRound {
  import opened Wrappers
  import opened Model
  import opened Journal
  import opened JournalOps
  import opened JournalRefinement
  import opened JournalStoreImpl
  import opened BatchClaims
  import opened ObservationProtocol
  import opened InboxDelivery
  import opened InboxFate
  import opened InboxWorker
  import opened Folds
  import opened Ordering
  import opened Backoff

  function StateOf(s: InboxStore, id: string): InboxState {
    Get(s.states, id, NO_INBOX_STATE)
  }

  // The claims

  /** A batch of claimable items and the leases that claiming them returns. */
  ghost predicate Batch(s: InboxStore, keys: seq<string>, leases: seq<InboxLease>, c: Claimant) {
    c.Valid() && Distinct(keys) && |leases| == |keys| &&
    forall i :: 0 <= i < |keys| ==>
      InboxClaimable(s, keys[i], c.now) && s.items[keys[i]].id == keys[i] &&
      c.InboxLeaseFor(s, keys[i]) == Some(leases[i])
  }

  /** What RunOnce claims is such a batch. */
  lemma SelectionIsBatch(s: InboxStore, keys: seq<string>, leases: seq<InboxLease>, c: Claimant, limit: nat)
    requires c.Valid() && ItemsKeyed(s) && Selection(keys, InboxCandidates(s, c.now), IdRank, limit)
    requires Leased(keys, c.InboxLeases(s), leases)
    ensures Batch(s, keys, leases, c)
  {
    var rank := IdRank;
    forall i, j | 0 <= i < j < |keys| ensures keys[i] != keys[j] {
      SortedIsDistinct(keys, rank, i, j);
    }
    forall i | 0 <= i < |keys|
      ensures InboxClaimable(s, keys[i], c.now) && c.InboxLeaseFor(s, keys[i]) == Some(leases[i])
    {
      assert keys[i] in keys;
      assert c.InboxLeases(s)(keys[i]) == Some(leases[i]);
    }
  }

  /** The lease's holder has the item, which is not acknowledged. */
  ghost predicate Holds(s: InboxStore, lease: InboxLease) {
    lease.owner != "" && StateOf(s, lease.item.id).lease.owner == lease.owner && !StateOf(s, lease.item.id).acked
  }

  /** The first n items of the batch are held, and the others are as they were. */
  ghost predicate HeldTo(was: InboxStore, s: InboxStore, keys: seq<string>, leases: seq<InboxLease>, n: nat)
    requires |leases| == |keys|
  {
    s.items == was.items && (forall i :: 0 <= i < n && i < |keys| ==> Holds(s, leases[i])) &&
    forall i :: n <= i < |keys| ==> StateOf(s, keys[i]) == StateOf(was, keys[i])
  }

  lemma ClaimHolds(sys: System, was: InboxStore, keys: seq<string>, leases: seq<InboxLease>, c: Claimant, n: nat)
    requires Batch(was, keys, leases, c) && n < |keys| && HeldTo(was, sys.mem.inbox, keys, leases, n)
    ensures HeldTo(was, Exec(sys, c.Inboxes(keys)[n]).mem.inbox, keys, leases, n + 1)
  {
    InboxAfterExec(sys, c.Inboxes(keys)[n]);
    var id := keys[n];
    assert StateOf(sys.mem.inbox, id) == StateOf(was, id);
    assert InboxClaimable(sys.mem.inbox, id, c.now);
    var after := Exec(sys, c.Inboxes(keys)[n]).mem.inbox;
    forall i | 0 <= i < n + 1 ensures Holds(after, leases[i]) {
      assert c.InboxLeaseFor(was, keys[i]) == Some(leases[i]);
      assert i < n ==> keys[i] != id && Holds(sys.mem.inbox, leases[i]);
    }
  }

  lemma {:induction false} ClaimsHold(sys: System, keys: seq<string>, leases: seq<InboxLease>, c: Claimant,
                                      trail: seq<System>, n: nat)
    requires Batch(sys.mem.inbox, keys, leases, c) && Passes(sys, c.Inboxes(keys), trail) && n <= |keys|
    ensures HeldTo(sys.mem.inbox, trail[n].mem.inbox, keys, leases, n)
  {
    if n > 0 {
      ClaimsHold(sys, keys, leases, c, trail, n - 1);
      ClaimHolds(trail[n - 1], sys.mem.inbox, keys, leases, c, n - 1);
    }
  }

  lemma {:induction false} ClaimsStayHealthy(sys: System, keys: seq<string>, c: Claimant, trail: seq<System>, n: nat)
    requires Healthy(sys) && Passes(sys, c.Inboxes(keys), trail) && n <= |keys|
    ensures Healthy(trail[n])
  {
    if n > 0 {
      ClaimsStayHealthy(sys, keys, c, trail, n - 1);
      HealthyStays(trail[n - 1], c.Inboxes(keys)[n - 1]);
    }
  }

  // One item

  /** What becomes of an item in its turn, and that nothing else becomes of it until the store is as it is now. */
  ghost predicate Answered(before: System, now: InboxStore, lease: InboxLease, s: Setting, e: ItemEnv, b: Backoffs) {
    var id := lease.item.id;
    id in now.items && StateOf(now, id).lease.owner == "" &&
    (StateOf(now, id).acked <==> s.Steps(lease.item).Some? && Applicable(before.mem.work, lease.item)) &&
    (!StateOf(now, id).acked ==>
       forall t :: InboxClaimable(now, id, t) <==> t >= e.now + Delay(lease.attempt, b.base, b.maximum))
  }

  lemma ApplyingKeepsInbox(sys: System, item: InboxItem, s: Setting, env: Env)
    ensures ApplyItem(sys, item, s.digest, s.move, env).0.mem.inbox == sys.mem.inbox
  {
    if s.Steps(item).Some? && Applicable(sys.mem.work, item) {
      var key, steps := TaskKeyOf(item), s.Steps(item).value;
      var f := Delivering(key, steps, env);
      forall a: System, k | 0 <= k < |steps| && a.mem.inbox == sys.mem.inbox
        ensures f(a, k).Some? ==> f(a, k).value.mem.inbox == sys.mem.inbox
      {
        if f(a, k).Some? {
          StepKeepsInbox(a, key, steps[k], env.now(k), env.eventId(k));
        }
      }
      FoldKeeps(sys, f, |steps|, (a: System) => a.mem.inbox == sys.mem.inbox);
    }
  }

  lemma ApplyingStaysHealthy(sys: System, item: InboxItem, s: Setting, env: Env)
    requires Healthy(sys)
    ensures Healthy(ApplyItem(sys, item, s.digest, s.move, env).0)
  {
    if s.Steps(item).Some? && Applicable(sys.mem.work, item) {
      StepsAreNamed(item, s);
      DeliveryAdvancesView(sys, TaskKeyOf(item), s.Steps(item).value, env, |s.Steps(item).value|);
    }
  }

  lemma AnswerEffect(sys: System, lease: InboxLease, ok: bool, now: Time, b: Backoffs)
    requires Holds(sys.mem.inbox, lease)
    ensures var id := lease.item.id;
            var after := Exec(sys, AnswerOp(lease, ok, now, b)).mem.inbox;
            after.items == sys.mem.inbox.items && StateOf(after, id).lease.owner == "" &&
            StateOf(after, id).acked == ok &&
            (!ok ==> StateOf(after, id).lease.availableAt == now + Delay(lease.attempt, b.base, b.maximum)) &&
            forall k :: k != id ==> StateOf(after, k) == StateOf(sys.mem.inbox, k)
  {
    InboxAfterExec(sys, AnswerOp(lease, ok, now, b));
  }

  lemma ItemIsAnswered(sys: System, lease: InboxLease, s: Setting, e: ItemEnv, b: Backoffs)
    requires Healthy(sys) && Holds(sys.mem.inbox, lease) && lease.item.id in sys.mem.inbox.items
    ensures var after := Process(sys, lease, s, e, b);
            Healthy(after) && Answered(sys, after.mem.inbox, lease, s, e, b) &&
            after.mem.inbox.items == sys.mem.inbox.items &&
            forall k :: k != lease.item.id ==> StateOf(after.mem.inbox, k) == StateOf(sys.mem.inbox, k)
  {
    var (applied, ok) := ApplyItem(sys, lease.item, s.digest, s.move, e.env);
    ItemIsAppliedIff(sys, lease.item, s, e.env);
    ApplyingKeepsInbox(sys, lease.item, s, e.env);
    ApplyingStaysHealthy(sys, lease.item, s, e.env);
    AnswerEffect(applied, lease, ok, e.now, b);
    HealthyStays(applied, AnswerOp(lease, ok, e.now, b));
  }

  // The batch

  /** The store as the items are processed one after the other. */
  ghost predicate Round(trail: seq<System>, leases: seq<InboxLease>, s: Setting, envs: nat -> ItemEnv, b: Backoffs) {
    |trail| == |leases| + 1 &&
    forall n :: 0 <= n < |leases| ==> trail[n + 1] == Process(trail[n], leases[n], s, envs(n), b)
  }

  /** The first n items have been answered, each in its turn, and the others are still held. */
  ghost predicate AnsweredTo(trail: seq<System>, leases: seq<InboxLease>, n: nat, s: Setting, envs: nat -> ItemEnv,
                             b: Backoffs)
    requires n < |trail| == |leases| + 1
  {
    Healthy(trail[n]) && trail[n].mem.inbox.items == trail[0].mem.inbox.items &&
    (forall i :: 0 <= i < n ==> Answered(trail[i], trail[n].mem.inbox, leases[i], s, envs(i), b)) &&
    forall i :: n <= i < |leases| ==> Holds(trail[n].mem.inbox, leases[i])
  }

  /** The leases are for different items, all of them stored. */
  ghost predicate DistinctItems(s: InboxStore, leases: seq<InboxLease>) {
    (forall i :: 0 <= i < |leases| ==> leases[i].item.id in s.items) &&
    forall i, j :: 0 <= i < j < |leases| ==> leases[i].item.id != leases[j].item.id
  }

  lemma AnswerStays(before: System, now: InboxStore, later: InboxStore, lease: InboxLease, s: Setting, e: ItemEnv,
                    b: Backoffs)
    requires Answered(before, now, lease, s, e, b) && later.items == now.items
    requires StateOf(later, lease.item.id) == StateOf(now, lease.item.id)
    ensures Answered(before, later, lease, s, e, b)
  {
    forall t ensures InboxClaimable(later, lease.item.id, t) <==> InboxClaimable(now, lease.item.id, t) {
    }
  }

  lemma OthersStayHeld(now: InboxStore, next: InboxStore, leases: seq<InboxLease>, n: nat)
    requires n < |leases| && DistinctItems(now, leases)
    requires forall k :: k != leases[n].item.id ==> StateOf(next, k) == StateOf(now, k)
    requires forall i :: n <= i < |leases| ==> Holds(now, leases[i])
    ensures forall i :: n < i < |leases| ==> Holds(next, leases[i])
    ensures forall i :: 0 <= i < n ==> StateOf(next, leases[i].item.id) == StateOf(now, leases[i].item.id)
  {
    forall i | n < i < |leases| ensures Holds(next, leases[i]) {
      assert leases[n].item.id != leases[i].item.id && Holds(now, leases[i]);
      assert StateOf(next, leases[i].item.id) == StateOf(now, leases[i].item.id);
    }
  }

  lemma NextIsAnswered(trail: seq<System>, leases: seq<InboxLease>, n: nat, s: Setting, envs: nat -> ItemEnv,
                       b: Backoffs)
    requires n < |leases| && Round(trail, leases, s, envs, b) && AnsweredTo(trail, leases, n, s, envs, b)
    requires DistinctItems(trail[0].mem.inbox, leases)
    ensures AnsweredTo(trail, leases, n + 1, s, envs, b)
  {
    var now, next := trail[n].mem.inbox, trail[n + 1].mem.inbox;
    ItemIsAnswered(trail[n], leases[n], s, envs(n), b);
    OthersStayHeld(now, next, leases, n);
    forall i | 0 <= i < n ensures Answered(trail[i], next, leases[i], s, envs(i), b) {
      AnswerStays(trail[i], now, next, leases[i], s, envs(i), b);
    }
  }

  lemma {:induction false} AllAnswered(trail: seq<System>, leases: seq<InboxLease>, n: nat, s: Setting,
                                       envs: nat -> ItemEnv, b: Backoffs)
    requires n <= |leases| && Round(trail, leases, s, envs, b) && Healthy(trail[0])
    requires DistinctItems(trail[0].mem.inbox, leases)
    requires forall i :: 0 <= i < |leases| ==> Holds(trail[0].mem.inbox, leases[i])
    ensures AnsweredTo(trail, leases, n, s, envs, b)
  {
    if n > 0 {
      AllAnswered(trail, leases, n - 1, s, envs, b);
      NextIsAnswered(trail, leases, n - 1, s, envs, b);
    }
  }

  lemma RoundTrail(start: System, leases: seq<InboxLease>, s: Setting, envs: nat -> ItemEnv, b: Backoffs)
    returns (trail: seq<System>)
    ensures Round(trail, leases, s, envs, b)
    ensures forall i :: 0 <= i <= |leases| ==> ProcessTo(start, leases, i, s, envs, b) == trail[i]
  {
    var f := Processing(leases, s, envs, b);
    FoldNeverRefused(start, f, |leases|);
    trail := FoldTrail(start, f, |leases|);
    forall n | 0 <= n < |leases| ensures trail[n + 1] == Process(trail[n], leases[n], s, envs(n), b) {
      assert f(trail[n], n) == Some(trail[n + 1]);
    }
    forall i | 0 <= i <= |leases| ensures ProcessTo(start, leases, i, s, envs, b) == trail[i] {
      assert Fold(start, f, i) == (trail[i], true);
    }
  }

  lemma BatchIsDistinct(s: InboxStore, keys: seq<string>, leases: seq<InboxLease>, c: Claimant)
    requires Batch(s, keys, leases, c)
    ensures DistinctItems(s, leases)
  {
    forall i | 0 <= i < |keys| ensures leases[i].item.id == keys[i] {
      assert c.InboxLeaseFor(s, keys[i]) == Some(leases[i]);
    }
  }

  /**
   Every item that RunOnce claims gets its answer, on every healthy store: it ends up acknowledged exactly if, in its
   turn, it decoded, its file parts could be moved and it named no other remote Task than its Task's; every other item
   is free again and can be claimed exactly from its retry time on.
   */
  lemma EveryItemIsAnswered(sys: System, keys: seq<string>, leases: seq<InboxLease>, c: Claimant, limit: nat,
                            s: Setting, envs: nat -> ItemEnv, b: Backoffs)
    requires Healthy(sys) && ItemsKeyed(sys.mem.inbox) && c.Valid()
    requires Selection(keys, InboxCandidates(sys.mem.inbox, c.now), IdRank, limit)
    requires Leased(keys, c.InboxLeases(sys.mem.inbox), leases)
    ensures var start := Run(sys, c.Inboxes(keys));
            var after := ProcessTo(start, leases, |leases|, s, envs, b);
            forall i :: 0 <= i < |leases| ==>
              Answered(ProcessTo(start, leases, i, s, envs, b), after.mem.inbox, leases[i], s, envs(i), b)
  {
    SelectionIsBatch(sys.mem.inbox, keys, leases, c, limit);
    BatchIsDistinct(sys.mem.inbox, keys, leases, c);
    var claims := RunTrail(sys, c.Inboxes(keys));
    ClaimsHold(sys, keys, leases, c, claims, |keys|);
    ClaimsStayHealthy(sys, keys, c, claims, |keys|);
    var trail := RoundTrail(claims[|keys|], leases, s, envs, b);
    AllAnswered(trail, leases, |leases|, s, envs, b);
  }
}
