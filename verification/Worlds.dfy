/** Worlds that move by legal steps: what is reachable, and what every reachable world keeps. */
module Worlds {
  import opened Wrappers
  import opened Folds

  /** Taking the steps of a sequence one after the other; `next` is None for a step that is not legal. */
  function Taking<W, S>(steps: seq<S>, next: (W, S) -> Option<W>): (W, nat) -> Option<W> {
    (w: W, i: nat) => if i < |steps| then next(w, steps[i]) else None
  }

  /** The steps are legal one after the other, and lead from w to v. */
  ghost predicate Leads<W, S>(w: W, steps: seq<S>, next: (W, S) -> Option<W>, v: W) {
    Fold(w, Taking(steps, next), |steps|) == (v, true)
  }

  ghost predicate Reaches<W, S(!new)>(w: W, v: W, next: (W, S) -> Option<W>) {
    exists steps: seq<S> :: Leads(w, steps, next, v)
  }

  lemma ReachesItself<W, S(!new)>(w: W, next: (W, S) -> Option<W>)
    ensures Reaches(w, w, next)
  {
    var none: seq<S> := [];
    assert Leads(w, none, next, w);
  }

  lemma {:induction false} TakingPrefix<W, S>(w: W, steps: seq<S>, longer: seq<S>, next: (W, S) -> Option<W>, n: nat)
    requires steps <= longer && n <= |steps|
    ensures Fold(w, Taking(longer, next), n) == Fold(w, Taking(steps, next), n)
  {
    if n > 0 {
      TakingPrefix(w, steps, longer, next, n - 1);
    }
  }

  lemma OneMoreLeads<W, S>(w: W, steps: seq<S>, next: (W, S) -> Option<W>, v: W, step: S, u: W)
    requires Leads(w, steps, next, v) && next(v, step) == Some(u)
    ensures Leads(w, steps + [step], next, u)
  {
    TakingPrefix(w, steps, steps + [step], next, |steps|);
  }

  lemma StepReaches<W, S(!new)>(w: W, v: W, step: S, u: W, next: (W, S) -> Option<W>)
    requires Reaches(w, v, next) && next(v, step) == Some(u)
    ensures Reaches(w, u, next)
  {
    var steps: seq<S> :| Leads(w, steps, next, v);
    OneMoreLeads(w, steps, next, v, step, u);
  }

  lemma {:induction false} LeadsOn<W, S(!new)>(w: W, v: W, steps: seq<S>, n: nat, next: (W, S) -> Option<W>)
    requires Reaches(w, v, next) && n <= |steps| && Fold(v, Taking(steps, next), n).1
    ensures Reaches(w, Fold(v, Taking(steps, next), n).0, next)
  {
    if n > 0 {
      LeadsOn(w, v, steps, n - 1, next);
      StepReaches(w, Fold(v, Taking(steps, next), n - 1).0, steps[n - 1], Fold(v, Taking(steps, next), n).0, next);
    }
  }

  lemma ReachesTransitively<W, S(!new)>(w: W, v: W, u: W, next: (W, S) -> Option<W>)
    requires Reaches(w, v, next) && Reaches(v, u, next)
    ensures Reaches(w, u, next)
  {
    var steps: seq<S> :| Leads(v, steps, next, u);
    LeadsOn(w, v, steps, |steps|, next);
  }

  /** What the start satisfies and every legal step keeps holds in every reachable world. */
  lemma ReachableKeeps<W(!new), S(!new)>(w: W, v: W, next: (W, S) -> Option<W>, kept: W -> bool)
    requires Reaches(w, v, next) && kept(w)
    requires forall a, step | kept(a) :: next(a, step).Some? ==> kept(next(a, step).value)
    ensures kept(v)
  {
    var steps: seq<S> :| Leads(w, steps, next, v);
    FoldKeeps(w, Taking(steps, next), |steps|, kept);
  }

  /** Where fewer steps are legal, no more worlds are reachable. */
  lemma FewerStepsReach<W(!new), S(!new)>(w: W, v: W, fewer: (W, S) -> Option<W>, next: (W, S) -> Option<W>)
    requires Reaches(w, v, fewer)
    requires forall a, step | fewer(a, step).Some? :: next(a, step) == fewer(a, step)
    ensures Reaches(w, v, next)
  {
    ReachesItself(w, next);
    forall a, step | Reaches(w, a, next) && fewer(a, step).Some? ensures Reaches(w, fewer(a, step).value, next) {
      StepReaches(w, a, step, fewer(a, step).value, next);
    }
    ReachableKeeps(w, v, fewer, (a: W) => Reaches(w, a, next));
  }
}
