/**
 A multiset counter in the manner of Python's `collections.Counter`, as used by
 the fairness audit: a finite map from keys to counts, where a key that was
 never incremented reads as 0 and is not stored.
 */
module Counters {

  /** Reading a key: a missing key counts 0. */
  function Get<K>(c: map<K, nat>, k: K): nat
  {
    if k in c then c[k] else 0
  }

  /** Every stored count is positive: keys appear only once incremented. */
  ghost predicate Positive<K>(c: map<K, nat>)
  {
    forall k | k in c :: c[k] > 0
  }

  /** `c` counts exactly the occurrences recorded in the multiset `m`. */
  ghost predicate Tallies<K(!new)>(c: map<K, nat>, m: multiset<K>)
  {
    Positive(c) && forall k :: Get(c, k) == m[k]
  }

  /** `c[k] += 1` on a Counter. */
  function Inc<K(!new)>(c: map<K, nat>, k: K): (r: map<K, nat>)
    ensures r.Keys == c.Keys + {k}
    ensures Get(r, k) == Get(c, k) + 1
    ensures forall j | j != k :: Get(r, j) == Get(c, j)
    ensures Positive(c) ==> Positive(r)
  {
    c[k := Get(c, k) + 1]
  }

  /** `sum(c.values())`. */
  ghost function Total<K>(c: map<K, nat>): nat
    decreases c.Keys
  {
    if c.Keys == {} then 0
    else
      var k :| k in c;
      c[k] + Total(c - {k})
  }

  /** Total may be taken apart at any key, not only the one it picks. */
  lemma {:induction false} TotalRemove<K>(c: map<K, nat>, k: K)
    requires k in c
    ensures Total(c) == c[k] + Total(c - {k})
    decreases c.Keys
  {
    var j :| j in c && Total(c) == c[j] + Total(c - {j});
    if j != k {
      var cj, ck := c - {j}, c - {k};
      assert k in cj && j in ck;
      assert cj[k] == c[k] && ck[j] == c[j];
      TotalRemove(cj, k);
      TotalRemove(ck, j);
      assert cj - {k} == ck - {j};
    }
  }

  /** One increment adds exactly one to the total. */
  lemma TotalInc<K(!new)>(c: map<K, nat>, k: K)
    ensures Total(Inc(c, k)) == Total(c) + 1
  {
    var r := Inc(c, k);
    TotalRemove(r, k);
    if k in c {
      TotalRemove(c, k);
      assert r - {k} == c - {k};
    } else {
      assert r - {k} == c;
    }
  }

  /** Every stored count is at most the total. */
  lemma TotalBounds<K>(c: map<K, nat>, k: K)
    requires k in c
    ensures c[k] <= Total(c)
  {
    TotalRemove(c, k);
  }

  /** A tally stores exactly the keys that occur in the multiset. */
  lemma TalliesKeys<K(!new)>(c: map<K, nat>, m: multiset<K>)
    requires Tallies(c, m)
    ensures forall k :: k in c <==> k in m
    ensures c == map[] <==> m == multiset{}
  {
    if m != multiset{} {
      var k :| k in m;
      assert Get(c, k) > 0;
    }
  }

  /** A counter that tallies a multiset is the only one that does. */
  lemma TalliesUnique<K(!new)>(c1: map<K, nat>, c2: map<K, nat>, m: multiset<K>)
    requires Tallies(c1, m) && Tallies(c2, m)
    ensures c1 == c2
  {
    TalliesKeys(c1, m);
    TalliesKeys(c2, m);
    assert forall k | k in c1 :: c1[k] == Get(c1, k) == Get(c2, k) == c2[k];
  }

  /** Tallies of nested multisets are nested counters: fewer keys, smaller counts. */
  lemma TalliesIncluded<K(!new)>(c1: map<K, nat>, m1: multiset<K>, c2: map<K, nat>, m2: multiset<K>)
    requires Tallies(c1, m1) && Tallies(c2, m2) && m1 <= m2
    ensures c1.Keys <= c2.Keys
    ensures forall k | k in c1 :: c1[k] <= c2[k]
  {
    TalliesKeys(c1, m1);
    TalliesKeys(c2, m2);
    forall k | k in c1
      ensures k in c2 && c1[k] <= c2[k]
    {
      assert Get(c1, k) == m1[k] <= m2[k] == Get(c2, k);
    }
  }

  /** `c` is `c0` with every occurrence in `add` counted once more. */
  ghost predicate Adds<K(!new)>(c0: map<K, nat>, c: map<K, nat>, add: multiset<K>)
  {
    && (Positive(c0) ==> Positive(c))
    && (forall k :: Get(c, k) == Get(c0, k) + add[k])
    && Total(c) == Total(c0) + |add|
  }

  /** One more increment of `k` adds one more occurrence of `k`, and one to the total. */
  lemma AddsInc<K(!new)>(c0: map<K, nat>, c: map<K, nat>, add: multiset<K>, k: K)
    requires Adds(c0, c, add)
    ensures Adds(c0, Inc(c, k), add + multiset{k})
  {
    TotalInc(c, k);
  }

  /** Adding the occurrences of `add` to a tally of `m` gives a tally of `m + add`. */
  lemma TalliesAdd<K(!new)>(c0: map<K, nat>, m: multiset<K>, c: map<K, nat>, add: multiset<K>)
    requires Tallies(c0, m) && Adds(c0, c, add)
    ensures Tallies(c, m + add)
  {
  }
}
