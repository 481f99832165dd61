/** Lexicographic order on strings, and the sorted, bounded selection every batch claim makes. */
module Ordering {

  predicate Less(a: string, b: string) {
    b != "" && (a == "" || a[0] < b[0] || (a[0] == b[0] && Less(a[1..], b[1..])))
  }

  lemma {:induction false} LessIrreflexive(a: string)
    ensures !Less(a, a)
  {
    if a != "" { LessIrreflexive(a[1..]); }
  }

  lemma {:induction false} LessTransitive(a: string, b: string, c: string)
    requires Less(a, b) && Less(b, c)
    ensures Less(a, c)
  {
    if a != "" && a[0] == b[0] && b[0] == c[0] {
      LessTransitive(a[1..], b[1..], c[1..]);
    }
  }

  lemma {:induction false} LessTotal(a: string, b: string)
    ensures a == b || Less(a, b) || Less(b, a)
  {
    if a != "" && b != "" && a[0] == b[0] {
      LessTotal(a[1..], b[1..]);
      if a[1..] == b[1..] {
        assert a == [a[0]] + a[1..] && b == [b[0]] + b[1..];
      }
    }
  }

  /** Batch order: by rank, then by the two strings of a resource key. */
  datatype SortKey = SortKey(rank: int, first: string, second: string)

  predicate Before(a: SortKey, b: SortKey) {
    a.rank < b.rank ||
    (a.rank == b.rank && (Less(a.first, b.first) || (a.first == b.first && Less(a.second, b.second))))
  }

  lemma BeforeTransitive(a: SortKey, b: SortKey, c: SortKey)
    requires Before(a, b) && Before(b, c)
    ensures Before(a, c)
  {
    if Less(a.first, b.first) && Less(b.first, c.first) { LessTransitive(a.first, b.first, c.first); }
    if Less(a.second, b.second) && Less(b.second, c.second) { LessTransitive(a.second, b.second, c.second); }
  }

  lemma BeforeTotal(a: SortKey, b: SortKey)
    ensures a == b || Before(a, b) || Before(b, a)
  {
    LessTotal(a.first, b.first);
    LessTotal(a.second, b.second);
  }

  lemma BeforeAsymmetric(a: SortKey, b: SortKey)
    requires Before(a, b)
    ensures !Before(b, a)
  {
    if Before(b, a) {
      BeforeTransitive(a, b, a);
      LessIrreflexive(a.first);
      LessIrreflexive(a.second);
    }
  }

  ghost predicate Sorted<K>(ks: seq<K>, rank: K -> SortKey) {
    forall i, j :: 0 <= i < j < |ks| ==> Before(rank(ks[i]), rank(ks[j]))
  }

  ghost predicate Injective<K(!new)>(rank: K -> SortKey) {
    forall a, b :: rank(a) == rank(b) ==> a == b
  }

  /** The first `limit` candidates in order. */
  ghost predicate Selection<K>(ks: seq<K>, candidates: set<K>, rank: K -> SortKey, limit: nat) {
    Sorted(ks, rank) && |ks| <= limit &&
    (forall k :: k in ks ==> k in candidates) &&
    (forall c :: c in candidates && c !in ks ==>
       |ks| == limit && forall k :: k in ks ==> Before(rank(k), rank(c)))
  }

  lemma SortedIsDistinct<K>(ks: seq<K>, rank: K -> SortKey, i: nat, j: nat)
    requires Sorted(ks, rank) && i < j < |ks|
    ensures ks[i] != ks[j]
  {
    if ks[i] == ks[j] {
      BeforeAsymmetric(rank(ks[i]), rank(ks[j]));
    }
  }

  /** Inserts a key before the first one it precedes. */
  method Insert<K(==, !new)>(ks: seq<K>, k: K, rank: K -> SortKey) returns (r: seq<K>)
    requires Sorted(ks, rank) && Injective(rank) && k !in ks
    ensures Sorted(r, rank)
    ensures forall x :: x in r <==> x in ks || x == k
  {
    var i := 0;
    while i < |ks| && Before(rank(ks[i]), rank(k))
      invariant 0 <= i <= |ks|
      invariant forall m :: 0 <= m < i ==> Before(rank(ks[m]), rank(k))
    {
      i := i + 1;
    }
    r := ks[..i] + [k] + ks[i..];
    forall m | i <= m < |ks| ensures Before(rank(k), rank(ks[m])) {
      BeforeTotal(rank(ks[i]), rank(k));
      if m > i { BeforeTransitive(rank(k), rank(ks[i]), rank(ks[m])); }
    }
  }

  /** Sorts the candidates and keeps at most `limit` of them. */
  method Select<K(==, !new)>(candidates: set<K>, rank: K -> SortKey, limit: nat) returns (ks: seq<K>)
    requires Injective(rank)
    ensures Selection(ks, candidates, rank, limit)
  {
    var rest, all := candidates, [];
    while rest != {}
      invariant rest <= candidates && Sorted(all, rank)
      invariant forall x :: x in all <==> x in candidates && x !in rest
      decreases rest
    {
      var k :| k in rest;
      all := Insert(all, k, rank);
      rest := rest - {k};
    }
    ks := if |all| > limit then all[..limit] else all;
    forall c, k | c in candidates && c !in ks && k in ks
      ensures |ks| == limit && Before(rank(k), rank(c))
    {
      var i :| 0 <= i < |all| && all[i] == c;
      var j :| 0 <= j < |ks| && ks[j] == k;
      assert all[j] == k;
      assert i >= |ks|;
    }
    forall c | c in candidates && c !in ks ensures |ks| == limit {
      assert c in all;
    }
  }
}
