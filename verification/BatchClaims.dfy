/**
 What every batch claim has in common: the keys of a batch are claimed one after the other, and each lease is
 the one its key had coming when the batch began.
 */
module BatchClaims {
  import opened Wrappers

  /** Every key of the batch got its lease. */
  ghost predicate Leased<K(!new), L(!new)>(keys: seq<K>, lease: K -> Option<L>, claimed: seq<L>) {
    |claimed| == |keys| && forall i :: 0 <= i < |keys| ==> lease(keys[i]) == Some(claimed[i])
  }

  /** The first keys got their leases, and the others are as they were. */
  ghost predicate LeasedSoFar<K(!new), L(!new)>(keys: seq<K>, same: K -> bool, lease: K -> Option<L>, claimed: seq<L>) {
    |claimed| <= |keys| &&
    (forall m :: 0 <= m < |claimed| ==> lease(keys[m]) == Some(claimed[m])) &&
    forall m :: |claimed| <= m < |keys| ==> same(keys[m])
  }

  ghost predicate Distinct<K(!new)>(keys: seq<K>) {
    forall i, j :: 0 <= i < j < |keys| ==> keys[i] != keys[j]
  }

  lemma OneMoreLease<K(!new), L(!new)>(keys: seq<K>, before: K -> bool, after: K -> bool, lease: K -> Option<L>,
                                       claimed: seq<L>, next: L)
    requires LeasedSoFar(keys, before, lease, claimed) && |claimed| < |keys| && Distinct(keys)
    requires lease(keys[|claimed|]) == Some(next)
    requires forall k :: k != keys[|claimed|] && before(k) ==> after(k)
    ensures LeasedSoFar(keys, after, lease, claimed + [next])
  {
    forall m | |claimed| < m < |keys| ensures after(keys[m]) {
      assert before(keys[m]) && keys[m] != keys[|claimed|];
    }
  }
}
