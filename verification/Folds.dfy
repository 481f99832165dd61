/** Steps that are taken one after the other until one is refused. */
module Folds {
  import opened Wrappers

  /** The first n steps from x, up to the first that is refused, and whether none was. */
  function Fold<T>(x: T, step: (T, nat) -> Option<T>, n: nat): (T, bool) {
    if n == 0 then (x, true)
    else
      var (before, ok) := Fold(x, step, n - 1);
      if !ok then (before, false)
      else
        match step(before, n - 1)
        case None => (before, false)
        case Some(after) => (after, true)
  }

  /** What follows a refusal changes nothing. */
  lemma {:induction false} FoldRefused<T>(x: T, step: (T, nat) -> Option<T>, n: nat, m: nat)
    requires n <= m && !Fold(x, step, n).1
    ensures Fold(x, step, m) == Fold(x, step, n)
    decreases m
  {
    if n < m {
      FoldRefused(x, step, n, m - 1);
    }
  }

  lemma {:induction false} FoldNeverRefused<T(!new)>(x: T, step: (T, nat) -> Option<T>, n: nat)
    requires forall a, k | 0 <= k < n :: step(a, k).Some?
    ensures Fold(x, step, n).1
  {
    if n > 0 {
      FoldNeverRefused(x, step, n - 1);
    }
  }

  lemma {:induction false} FoldFixed<T(!new)>(x: T, step: (T, nat) -> Option<T>, n: nat)
    requires forall k :: 0 <= k < n ==> step(x, k) == Some(x)
    ensures Fold(x, step, n) == (x, true)
  {
    if n > 0 {
      FoldFixed(x, step, n - 1);
    }
  }

  /** The states passed through, up to the first refusal. */
  ghost predicate Trail<T>(trail: seq<T>, x: T, step: (T, nat) -> Option<T>) {
    trail != [] && trail[0] == x && forall k :: 0 <= k < |trail| - 1 ==> step(trail[k], k) == Some(trail[k + 1])
  }

  lemma {:induction false} FoldTrail<T(!new)>(x: T, step: (T, nat) -> Option<T>, n: nat) returns (trail: seq<T>)
    ensures Trail(trail, x, step) && |trail| <= n + 1
    ensures Fold(x, step, n) == (trail[|trail| - 1], |trail| == n + 1)
    ensures forall k :: 0 <= k < |trail| ==> Fold(x, step, k) == (trail[k], true)
  {
    if n == 0 {
      trail := [x];
    } else {
      trail := FoldTrail(x, step, n - 1);
      var (before, ok) := Fold(x, step, n - 1);
      if ok {
        match step(before, n - 1)
        case None =>
        case Some(after) => trail := trail + [after];
      }
    }
  }

  /** Two runs of steps that keep a relation: related states are refused alike and stay related. */
  lemma {:induction false} FoldSimulates<T(!new), V(!new)>(
    x: T, f: (T, nat) -> Option<T>, v: V, g: (V, nat) -> Option<V>, n: nat, related: (T, V) -> bool)
    requires related(x, v)
    requires forall a, b, k | 0 <= k < n && related(a, b) ::
               (f(a, k).None? <==> g(b, k).None?) && (f(a, k).Some? ==> related(f(a, k).value, g(b, k).value))
    ensures related(Fold(x, f, n).0, Fold(v, g, n).0) && Fold(x, f, n).1 == Fold(v, g, n).1
  {
    if n > 0 {
      FoldSimulates(x, f, v, g, n - 1, related);
    }
  }

  lemma {:induction false} FoldKeeps<T(!new)>(x: T, step: (T, nat) -> Option<T>, n: nat, kept: T -> bool)
    requires kept(x)
    requires forall a, k | 0 <= k < n && kept(a) :: step(a, k).Some? ==> kept(step(a, k).value)
    ensures kept(Fold(x, step, n).0)
  {
    if n > 0 {
      FoldKeeps(x, step, n - 1, kept);
    }
  }
}
