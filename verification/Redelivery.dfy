/**
 Redelivery when file parts are moved anew at each delivery (internal/hub/service.go, externalizeArtifact): a part that
 is fetched by its address may come back different, so two deliveries of one observation may carry other artifacts,
 under the same keys. What they leave may then differ in artifacts, and in nothing else.
 */
module Redelivery {
  import opened Wrappers
  import opened Model
  import opened Journal
  import opened JournalOps
  import opened JournalRefinement
  import opened TaskChanges
  import opened ObservationProtocol
  import opened Folds

  /** The same change, but for artifacts. */
  ghost predicate AlikeChange(a: Change, b: Change) {
    match (a, b)
    case (ApplyStatus(o), ApplyStatus(p)) => o.(artifacts := []) == p.(artifacts := [])
    case (AddArtifact(_, source), AddArtifact(_, other)) => source == other
    case _ => a == b
  }

  ghost predicate AlikeStep(a: SubStep, b: SubStep) {
    a.dedup == b.dedup && AlikeChange(a.change, b.change)
  }

  ghost predicate AlikeSteps(a: seq<SubStep>, b: seq<SubStep>) {
    |a| == |b| && forall i :: 0 <= i < |a| ==> AlikeStep(a[i], b[i])
  }

  /** The same Task, events and keys, but for the artifacts in them. */
  ghost predicate Alike(v: View, w: View) {
    v.task.(artifacts := []) == w.task.(artifacts := []) && v.dedup == w.dedup && |v.events| == |w.events| &&
    forall i :: 0 <= i < |v.events| ==> v.events[i].(artifact := None) == w.events[i].(artifact := None)
  }

  // Moving keeps the keys

  /** Moving the file parts of an artifact leaves its ID. */
  ghost predicate KeepsIds(move: (nat, Artifact) -> Option<Artifact>) {
    forall i, a :: move(i, a).Some? ==> move(i, a).value.id == a.id
  }

  lemma {:induction false} MovedIds(updates: seq<ArtifactUpdate>, move: (nat, Artifact) -> Option<Artifact>)
    requires KeepsIds(move) && Externalized(updates, move).Some?
    ensures var moved := Externalized(updates, move).value;
            |moved| == |updates| && forall i :: 0 <= i < |moved| ==> moved[i].artifact.id == updates[i].artifact.id
  {
    if updates != [] {
      MovedIds(updates[..|updates| - 1], move);
    }
  }

  lemma AlikeSubSteps(o: Observation, a: seq<ArtifactUpdate>, b: seq<ArtifactUpdate>, base: string)
    requires |a| == |b| && forall i :: 0 <= i < |a| ==> a[i].artifact.id == b[i].artifact.id
    ensures AlikeSteps(SubSteps(o.(artifacts := a), base), SubSteps(o.(artifacts := b), base))
  {
    var first, second := o.(artifacts := a), o.(artifacts := b);
    forall i | 0 <= i < |a| ensures AlikeStep(ArtifactStep(first, base, i), ArtifactStep(second, base, i)) {
    }
  }

  /** Two successful moves of one observation's artifacts give sub-steps that are alike. */
  lemma MovesGiveAlikeSteps(item: InboxItem, digest: Observation -> string, first: (nat, Artifact) -> Option<Artifact>,
                            second: (nat, Artifact) -> Option<Artifact>)
    requires KeepsIds(first) && KeepsIds(second)
    requires ItemSteps(item, digest, first).Some? && ItemSteps(item, digest, second).Some?
    ensures AlikeSteps(ItemSteps(item, digest, first).value, ItemSteps(item, digest, second).value)
  {
    var o := item.payload.observation;
    MovedIds(o.artifacts, first);
    MovedIds(o.artifacts, second);
    AlikeSubSteps(Pushed(o), Externalized(o.artifacts, first).value, Externalized(o.artifacts, second).value,
                  BaseKey(Pushed(o), digest));
  }

  // Deliveries of steps that are alike

  lemma AlikeChanged(t: Task, u: Task, a: Change, b: Change)
    requires t.(artifacts := []) == u.(artifacts := []) && AlikeChange(a, b)
    ensures var x, y := Changed(a, t, ZERO_TIME), Changed(b, u, ZERO_TIME);
            (x.None? <==> y.None?) &&
            (x.Some? ==>
               x.value.0.(artifacts := []) == y.value.0.(artifacts := []) &&
               x.value.1.(artifact := None) == y.value.1.(artifact := None))
  {
  }

  lemma AlikeAdvance(v: View, w: View, a: SubStep, b: SubStep)
    requires Alike(v, w) && AlikeStep(a, b)
    ensures Advance(v, a).None? <==> Advance(w, b).None?
    ensures Advance(v, a).Some? ==> Alike(Advance(v, a).value, Advance(w, b).value)
  {
    AlikeChanged(v.task, w.task, a.change, b.change);
  }

  lemma AlikeDelivery(v: View, w: View, a: seq<SubStep>, b: seq<SubStep>, n: nat)
    requires Alike(v, w) && AlikeSteps(a, b) && n <= |a|
    ensures Alike(DeliverViewTo(v, a, n).0, DeliverViewTo(w, b, n).0)
    ensures DeliverViewTo(v, a, n).1 == DeliverViewTo(w, b, n).1
  {
    var f, g := Advancing(a), Advancing(b);
    forall x: View, y: View, k | 0 <= k < n && Alike(x, y)
      ensures (f(x, k).None? <==> g(y, k).None?) && (f(x, k).Some? ==> Alike(f(x, k).value, g(y, k).value))
    {
      AlikeAdvance(x, y, a[k], b[k]);
    }
    FoldSimulates(v, f, w, g, n, (x: View, y: View) => Alike(x, y));
  }

  /** However far an earlier delivery came, with whatever artifacts, delivering again ends as one would have. */
  lemma RedeliverAlike(v: View, earlier: seq<SubStep>, steps: seq<SubStep>, n: nat)
    requires AlikeSteps(earlier, steps) && n <= |steps|
    ensures var (again, ok) := DeliverView(DeliverViewTo(v, earlier, n).0, steps);
            Alike(again, DeliverView(v, steps).0) && ok == DeliverView(v, steps).1
  {
    AlikeDelivery(v, v, earlier, steps, n);
    AlikeDelivery(DeliverViewTo(v, earlier, n).0, DeliverViewTo(v, steps, n).0, steps, steps, |steps|);
    RedeliverView(v, steps, n);
  }

  // Deliveries to the store

  /** An attempt with the sub-steps that its own moves gave. One whose moves failed is cut off before the first. */
  datatype FreshAttempt = FreshAttempt(steps: seq<SubStep>, attempt: Attempt)

  ghost predicate FreshCutOff(a: FreshAttempt, key: Key, steps: seq<SubStep>) {
    AlikeSteps(a.steps, steps) && CutOff(a.attempt, key, a.steps)
  }

  /** The first n attempts, one after the other. */
  function AfterFresh(sys: System, key: Key, attempts: seq<FreshAttempt>, n: nat): System
    requires n <= |attempts|
  {
    if n == 0 then sys
    else AfterAttempt(AfterFresh(sys, key, attempts, n - 1), key, attempts[n - 1].steps, attempts[n - 1].attempt)
  }

  /** Delivering from either ends alike. */
  ghost predicate OnTrack(v: View, sys: System, key: Key, steps: seq<SubStep>) {
    Healthy(sys) && key in sys.mem.work.tasks &&
    Alike(DeliverView(ViewOf(sys.mem.work, key), steps).0, DeliverView(v, steps).0) &&
    DeliverView(ViewOf(sys.mem.work, key), steps).1 == DeliverView(v, steps).1
  }

  lemma AttemptView(sys: System, key: Key, steps: seq<SubStep>, a: Attempt)
    requires Healthy(sys) && key in sys.mem.work.tasks && Named(steps) && CutOff(a, key, steps)
    ensures var after := AfterAttempt(sys, key, steps, a);
            Healthy(after) && key in after.mem.work.tasks &&
            ViewOf(after.mem.work, key) == DeliverViewTo(ViewOf(sys.mem.work, key), steps, a.n).0
  {
    DeliveryAdvancesView(sys, key, steps, a.env, a.n);
    ElsewhereKeepsView(Fold(sys, Delivering(key, steps, a.env), a.n).0, a.between, key);
  }

  lemma AttemptStaysOnTrack(v: View, sys: System, key: Key, a: FreshAttempt, steps: seq<SubStep>)
    requires OnTrack(v, sys, key, steps) && Named(steps) && FreshCutOff(a, key, steps)
    ensures OnTrack(v, AfterAttempt(sys, key, a.steps, a.attempt), key, steps)
  {
    AttemptView(sys, key, a.steps, a.attempt);
    RedeliverAlike(ViewOf(sys.mem.work, key), a.steps, steps, a.attempt.n);
  }

  lemma StartsOnTrack(sys: System, key: Key, steps: seq<SubStep>)
    requires Healthy(sys) && key in sys.mem.work.tasks
    ensures OnTrack(ViewOf(sys.mem.work, key), sys, key, steps)
  {
  }

  lemma {:induction false} AttemptsStayOnTrack(sys: System, key: Key, attempts: seq<FreshAttempt>, n: nat,
                                               steps: seq<SubStep>)
    requires Healthy(sys) && key in sys.mem.work.tasks && Named(steps) && n <= |attempts|
    requires forall i :: 0 <= i < |attempts| ==> FreshCutOff(attempts[i], key, steps)
    ensures OnTrack(ViewOf(sys.mem.work, key), AfterFresh(sys, key, attempts, n), key, steps)
  {
    if n == 0 {
      StartsOnTrack(sys, key, steps);
    } else {
      AttemptsStayOnTrack(sys, key, attempts, n - 1, steps);
      AttemptStaysOnTrack(ViewOf(sys.mem.work, key), AfterFresh(sys, key, attempts, n - 1), key, attempts[n - 1],
                          steps);
    }
  }

  /**
   Redelivery with fresh moves: after any number of deliveries, each with the artifacts that its own moves gave, cut
   off anywhere and followed by a restart or anything else that leaves this Task alone, one more delivery ends with the
   same Task, events and keys as a single uninterrupted one, artifacts aside, and is accepted or refused alike.
   */
  lemma FreshRedeliveryIsExactlyOnce(sys: System, key: Key, attempts: seq<FreshAttempt>, last: seq<SubStep>, again: Env,
                                     steps: seq<SubStep>, once: Env)
    requires Healthy(sys) && key in sys.mem.work.tasks && Named(steps) && AlikeSteps(last, steps)
    requires forall i :: 0 <= i < |attempts| ==> FreshCutOff(attempts[i], key, steps)
    ensures var (x, ok) := Deliver(AfterFresh(sys, key, attempts, |attempts|), key, last, again);
            var (y, okOnce) := Deliver(sys, key, steps, once);
            key in x.mem.work.tasks && key in y.mem.work.tasks &&
            Alike(ViewOf(x.mem.work, key), ViewOf(y.mem.work, key)) && ok == okOnce
  {
    var after := AfterFresh(sys, key, attempts, |attempts|);
    AttemptsStayOnTrack(sys, key, attempts, |attempts|, steps);
    DeliveryAdvancesView(after, key, last, again, |last|);
    DeliveryAdvancesView(sys, key, steps, once, |steps|);
    AlikeDelivery(ViewOf(after.mem.work, key), ViewOf(after.mem.work, key), last, steps, |steps|);
  }
}
