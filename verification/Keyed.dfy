/** Lists whose elements are told apart by a key. */
module Keyed {

  /** The elements whose key is not `k`, in order. */
  function Without<E, K(==)>(xs: seq<E>, key: E -> K, k: K): seq<E> {
    if xs == [] then [] else
      var n := |xs| - 1;
      var before := Without(xs[..n], key, k);
      if key(xs[n]) == k then before else before + [xs[n]]
  }

  /** The keys in use. */
  function Image<E, K(==)>(xs: seq<E>, key: E -> K): set<K> {
    set i | 0 <= i < |xs| :: key(xs[i])
  }

  predicate Distinct<E, K(==)>(xs: seq<E>, key: E -> K) {
    forall i, j :: 0 <= i < j < |xs| ==> key(xs[i]) != key(xs[j])
  }

  lemma ImageAppend<E, K>(xs: seq<E>, key: E -> K, x: E)
    ensures Image(xs + [x], key) == Image(xs, key) + {key(x)}
  {
    var all := xs + [x];
    forall k | k in Image(xs, key) + {key(x)}
      ensures k in Image(all, key)
    {
      if k in Image(xs, key) {
        var i :| 0 <= i < |xs| && key(xs[i]) == k;
        assert key(all[i]) == k;
      } else {
        assert key(all[|xs|]) == k;
      }
    }
  }

  lemma DistinctAppend<E, K>(xs: seq<E>, key: E -> K, x: E)
    requires Distinct(xs, key)
    ensures Distinct(xs + [x], key) <==> key(x) !in Image(xs, key)
  {
    var all := xs + [x];
    assert all[|xs|] == x;
    if key(x) in Image(xs, key) {
      var i :| 0 <= i < |xs| && key(xs[i]) == key(x);
      assert key(all[i]) == key(all[|xs|]);
    }
  }

  lemma DistinctPrefix<E, K>(xs: seq<E>, key: E -> K, x: E)
    requires Distinct(xs + [x], key)
    ensures Distinct(xs, key) && key(x) !in Image(xs, key)
  {
    var all := xs + [x];
    assert forall i :: 0 <= i < |xs| ==> all[i] == xs[i];
    forall i, j | 0 <= i < j < |xs|
      ensures key(xs[i]) != key(xs[j])
    {
      assert key(all[i]) != key(all[j]);
    }
    DistinctAppend(xs, key, x);
  }

  lemma WithoutAppend<E, K>(xs: seq<E>, key: E -> K, k: K, x: E)
    ensures Without(xs + [x], key, k) == if key(x) == k then Without(xs, key, k) else Without(xs, key, k) + [x]
  {
    assert (xs + [x])[..|xs|] == xs;
  }

  lemma {:induction false} WithoutFacts<E, K>(xs: seq<E>, key: E -> K, k: K)
    ensures Image(Without(xs, key, k), key) == Image(xs, key) - {k}
    ensures Distinct(xs, key) ==> Distinct(Without(xs, key, k), key)
    ensures |Without(xs, key, k)| <= |xs|
  {
    if xs != [] {
      var n := |xs| - 1;
      assert xs == xs[..n] + [xs[n]];
      WithoutFacts(xs[..n], key, k);
      ImageAppend(xs[..n], key, xs[n]);
      ImageAppend(Without(xs[..n], key, k), key, xs[n]);
      if Distinct(xs, key) {
        DistinctAppend(xs[..n], key, xs[n]);
        DistinctAppend(Without(xs[..n], key, k), key, xs[n]);
      }
    }
  }

  lemma {:induction false} WithoutNothing<E, K>(xs: seq<E>, key: E -> K, k: K)
    requires k !in Image(xs, key)
    ensures Without(xs, key, k) == xs
  {
    if xs != [] {
      var n := |xs| - 1;
      assert xs == xs[..n] + [xs[n]];
      ImageAppend(xs[..n], key, xs[n]);
      WithoutNothing(xs[..n], key, k);
    }
  }

  // ---------------------------------------------------------------- ranked lists

  /** The largest rank, and at least 0. */
  function Top<E>(xs: seq<E>, rank: E -> int): (r: int)
    ensures r >= 0
  {
    if xs == [] then 0 else
      var before, last := Top(xs[..|xs| - 1], rank), rank(xs[|xs| - 1]);
      if last > before then last else before
  }

  /** Every rank is positive and above the ranks before it. */
  predicate Rising<E>(xs: seq<E>, rank: E -> int) {
    xs == [] || (Rising(xs[..|xs| - 1], rank) && Top(xs[..|xs| - 1], rank) < rank(xs[|xs| - 1]))
  }

  /** Ranks are positive and grow along the list. */
  predicate Ascending<E>(xs: seq<E>, rank: E -> int) {
    && (forall i :: 0 <= i < |xs| ==> 0 < rank(xs[i]))
    && (forall i, j :: 0 <= i < j < |xs| ==> rank(xs[i]) < rank(xs[j]))
  }

  lemma {:induction false} BelowTop<E>(xs: seq<E>, rank: E -> int, i: nat)
    requires i < |xs|
    ensures rank(xs[i]) <= Top(xs, rank)
    ensures Rising(xs, rank) ==> 0 < rank(xs[i])
  {
    if i < |xs| - 1 {
      BelowTop(xs[..|xs| - 1], rank, i);
    }
  }

  lemma {:induction false} RisingAt<E>(xs: seq<E>, rank: E -> int, i: nat, j: nat)
    requires Rising(xs, rank) && i < j < |xs|
    ensures rank(xs[i]) < rank(xs[j])
  {
    var n := |xs| - 1;
    if j < n {
      RisingAt(xs[..n], rank, i, j);
    } else {
      BelowTop(xs[..n], rank, i);
    }
  }

  lemma RisingMeans<E>(xs: seq<E>, rank: E -> int)
    requires Rising(xs, rank)
    ensures Ascending(xs, rank)
  {
    forall i | 0 <= i < |xs|
      ensures 0 < rank(xs[i])
    {
      BelowTop(xs, rank, i);
    }
    forall i, j | 0 <= i < j < |xs|
      ensures rank(xs[i]) < rank(xs[j])
    {
      RisingAt(xs, rank, i, j);
    }
  }

  lemma RisingAppend<E>(xs: seq<E>, rank: E -> int, x: E)
    ensures Rising(xs + [x], rank) <==> Rising(xs, rank) && Top(xs, rank) < rank(x)
    ensures Top(xs + [x], rank) == if rank(x) > Top(xs, rank) then rank(x) else Top(xs, rank)
  {
    assert (xs + [x])[..|xs|] == xs;
  }

  lemma {:induction false} WithoutRising<E, K>(xs: seq<E>, key: E -> K, k: K, rank: E -> int)
    ensures Top(Without(xs, key, k), rank) <= Top(xs, rank)
    ensures Rising(xs, rank) ==> Rising(Without(xs, key, k), rank)
  {
    if xs != [] {
      var n := |xs| - 1;
      WithoutRising(xs[..n], key, k, rank);
      RisingAppend(Without(xs[..n], key, k), rank, xs[n]);
    }
  }

  // ---------------------------------------------------------------- lists as maps

  /** The list as a map; a later element overrides an earlier one with its key. */
  function View<E, K(==), V>(xs: seq<E>, key: E -> K, value: E -> V): map<K, V> {
    if xs == [] then map[] else
      View(xs[..|xs| - 1], key, value)[key(xs[|xs| - 1]) := value(xs[|xs| - 1])]
  }

  lemma ViewAppend<E, K, V>(xs: seq<E>, key: E -> K, value: E -> V, x: E)
    ensures View(xs + [x], key, value) == View(xs, key, value)[key(x) := value(x)]
  {
    assert (xs + [x])[..|xs|] == xs;
  }

  lemma {:induction false} ViewKeys<E, K, V>(xs: seq<E>, key: E -> K, value: E -> V)
    ensures View(xs, key, value).Keys == Image(xs, key)
  {
    if xs != [] {
      var n := |xs| - 1;
      assert xs == xs[..n] + [xs[n]];
      ViewKeys(xs[..n], key, value);
      ImageAppend(xs[..n], key, xs[n]);
    }
  }

  lemma DropPut<K, V>(m: map<K, V>, a: K, v: V, k: K)
    ensures m[a := v] - {k} == if a == k then m - {k} else (m - {k})[a := v]
  {
  }

  lemma {:induction false} WithoutView<E, K, V>(xs: seq<E>, key: E -> K, value: E -> V, k: K)
    ensures View(Without(xs, key, k), key, value) == View(xs, key, value) - {k}
  {
    if xs != [] {
      var n := |xs| - 1;
      WithoutView(xs[..n], key, value, k);
      DropPut(View(xs[..n], key, value), key(xs[n]), value(xs[n]), k);
      ViewAppend(Without(xs[..n], key, k), key, value, xs[n]);
    }
  }
}
