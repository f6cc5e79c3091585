/** Lists sorted by a text key, and why such a list is determined by its elements. */
module Sorting {
  import opened Common
  import opened Keyed

  /** Lexicographic order of texts. */
  predicate Less(a: string, b: string) {
    b != "" && (a == "" || a[0] < b[0] || (a[0] == b[0] && Less(a[1..], b[1..])))
  }

  /** At `k` the strings first differ, and the first has the smaller character there. */
  predicate SmallerAt(a: string, b: string, k: nat) {
    k < |a| && k < |b| && a[..k] == b[..k] && a[k] < b[k]
  }

  /** The first string is a proper beginning of the second, or smaller where they first differ. */
  predicate Precedes(a: string, b: string) {
    a < b || exists k :: 0 <= k < |a| && SmallerAt(a, b, k)
  }

  lemma PrecedesHead(a: string, b: string)
    requires a != [] && b != [] && a[0] != b[0]
    ensures Precedes(a, b) <==> a[0] < b[0]
  {
    if a[0] < b[0] {
      assert SmallerAt(a, b, 0);
    }
    forall k | 0 < k < |a|
      ensures !SmallerAt(a, b, k)
    {
      DiffersEarlier(a, b, k);
    }
  }

  lemma DiffersEarlier(a: string, b: string, k: nat)
    requires a != [] && b != [] && a[0] != b[0] && k > 0
    ensures !SmallerAt(a, b, k)
  {
    if k < |a| && k < |b| {
      assert a[..k][0] != b[..k][0];
    }
  }

  lemma SmallerTail(a: string, b: string, k: nat)
    requires a != [] && b != [] && a[0] == b[0]
    ensures SmallerAt(a, b, k + 1) <==> SmallerAt(a[1..], b[1..], k)
  {
    if k < |a| - 1 && k < |b| - 1 {
      assert a[..k + 1] == [a[0]] + a[1..][..k] && b[..k + 1] == [b[0]] + b[1..][..k];
      assert a[1..][..k] == a[..k + 1][1..] && b[1..][..k] == b[..k + 1][1..];
    }
  }

  lemma PrecedesTail(a: string, b: string)
    requires a != [] && b != [] && a[0] == b[0]
    ensures Precedes(a, b) <==> Precedes(a[1..], b[1..])
  {
    assert a == [a[0]] + a[1..] && b == [b[0]] + b[1..];
    if k :| 0 <= k < |a| && SmallerAt(a, b, k) {
      SmallerTail(a, b, k - 1);
    }
    if k :| 0 <= k < |a[1..]| && SmallerAt(a[1..], b[1..], k) {
      SmallerTail(a, b, k);
    }
  }

  /** Keys are compared character by character. */
  lemma {:induction false} LessMeans(a: string, b: string)
    ensures Less(a, b) <==> Precedes(a, b)
  {
    if a != [] && b != [] {
      if a[0] == b[0] {
        PrecedesTail(a, b);
        LessMeans(a[1..], b[1..]);
      } else {
        PrecedesHead(a, b);
      }
    }
  }

  lemma {:induction false} LessTransitive(a: string, b: string, c: string)
    requires Less(a, b) && Less(b, c)
    ensures Less(a, c)
  {
    if a != "" && a[0] == b[0] == c[0] {
      LessTransitive(a[1..], b[1..], c[1..]);
    }
  }

  lemma {:induction false} LessTotal(a: string, b: string)
    ensures Less(a, b) || a == b || Less(b, a)
  {
    if a != "" && b != "" && a[0] == b[0] {
      LessTotal(a[1..], b[1..]);
      assert a == [a[0]] + a[1..] && b == [b[0]] + b[1..];
    }
  }

  lemma {:induction false} LessIrreflexive(a: string)
    ensures !Less(a, a)
  {
    if a != "" {
      LessIrreflexive(a[1..]);
    }
  }

  /** Strictly increasing keys. */
  predicate Sorted<E>(xs: seq<E>, key: E -> string) {
    forall i, j :: 0 <= i < j < |xs| ==> Less(key(xs[i]), key(xs[j]))
  }

  /** The list that `x` is put into at its place; keys are taken to be distinct. */
  function Insert<E>(xs: seq<E>, key: E -> string, x: E): seq<E> {
    if xs == [] || Less(key(xs[|xs| - 1]), key(x)) then xs + [x]
    else Insert(xs[..|xs| - 1], key, x) + [xs[|xs| - 1]]
  }

  /** The elements in key order. */
  function Arranged<E>(xs: seq<E>, key: E -> string): seq<E> {
    if xs == [] then [] else Insert(Arranged(xs[..|xs| - 1], key), key, xs[|xs| - 1])
  }

  lemma {:induction false} InsertKeeps<E>(xs: seq<E>, key: E -> string, x: E)
    ensures multiset(Insert(xs, key, x)) == multiset(xs) + multiset{x}
  {
    if xs != [] {
      var n := |xs| - 1;
      assert xs == xs[..n] + [xs[n]];
      InsertKeeps(xs[..n], key, x);
    }
  }

  /** Everything in the list is below `x`. */
  ghost predicate AllBelow<E>(xs: seq<E>, key: E -> string, x: E) {
    forall y :: y in xs ==> Less(key(y), key(x))
  }

  lemma SortedAppend<E>(xs: seq<E>, key: E -> string, x: E)
    ensures Sorted(xs + [x], key) <==> Sorted(xs, key) && AllBelow(xs, key, x)
  {
    var all := xs + [x];
    assert all[|xs|] == x && forall i :: 0 <= i < |xs| ==> all[i] == xs[i];
    if Sorted(all, key) {
      forall y | y in xs
        ensures Less(key(y), key(x))
      {
        var i :| 0 <= i < |xs| && xs[i] == y;
        assert Less(key(all[i]), key(all[|xs|]));
      }
      forall i, j | 0 <= i < j < |xs|
        ensures Less(key(xs[i]), key(xs[j]))
      {
        assert Less(key(all[i]), key(all[j]));
      }
    }
  }

  lemma {:induction false} InsertSorts<E>(xs: seq<E>, key: E -> string, x: E)
    requires Sorted(xs, key) && key(x) !in Image(xs, key)
    ensures Sorted(Insert(xs, key, x), key)
  {
    if xs != [] {
      var n := |xs| - 1;
      var before, last := xs[..n], xs[n];
      assert xs == before + [last];
      SortedAppend(before, key, last);
      SortedAppend(xs, key, x);
      if Less(key(last), key(x)) {
        forall y | y in xs
          ensures Less(key(y), key(x))
        {
          if y in before {
            LessTransitive(key(y), key(last), key(x));
          }
        }
      } else {
        ImageAppend(before, key, last);
        InsertSorts(before, key, x);
        LessTotal(key(last), key(x));
        InsertKeeps(before, key, x);
        forall y | y in Insert(before, key, x)
          ensures Less(key(y), key(last))
        {
          assert y in multiset(Insert(before, key, x));
        }
        SortedAppend(Insert(before, key, x), key, last);
      }
    }
  }

  /** The same elements, as often. */
  lemma {:induction false} ArrangedKeeps<E>(xs: seq<E>, key: E -> string)
    ensures multiset(Arranged(xs, key)) == multiset(xs)
  {
    if xs != [] {
      var n := |xs| - 1;
      assert xs == xs[..n] + [xs[n]];
      ArrangedKeeps(xs[..n], key);
      InsertKeeps(Arranged(xs[..n], key), key, xs[n]);
    }
  }

  lemma SameElements<E>(xs: seq<E>, ys: seq<E>)
    requires multiset(xs) == multiset(ys)
    ensures forall x :: x in xs <==> x in ys
    ensures |xs| == |ys|
  {
    forall x
      ensures x in xs <==> x in ys
    {
      assert x in xs <==> x in multiset(xs);
      assert x in ys <==> x in multiset(ys);
    }
    assert |multiset(xs)| == |xs| && |multiset(ys)| == |ys|;
  }

  lemma SameImage<E, K>(xs: seq<E>, ys: seq<E>, key: E -> K)
    requires forall x :: x in xs <==> x in ys
    ensures Image(xs, key) == Image(ys, key)
  {
    ImageIncluded(xs, ys, key);
    ImageIncluded(ys, xs, key);
  }

  lemma ImageIncluded<E, K>(xs: seq<E>, ys: seq<E>, key: E -> K)
    requires forall x :: x in xs ==> x in ys
    ensures Image(xs, key) <= Image(ys, key)
  {
    forall k | k in Image(xs, key)
      ensures k in Image(ys, key)
    {
      var i :| 0 <= i < |xs| && key(xs[i]) == k;
      assert xs[i] in xs;
      var j :| 0 <= j < |ys| && ys[j] == xs[i];
      assert key(ys[j]) == k;
    }
  }

  lemma {:induction false} ArrangedSorts<E>(xs: seq<E>, key: E -> string)
    requires Distinct(xs, key)
    ensures Sorted(Arranged(xs, key), key)
  {
    if xs != [] {
      var n := |xs| - 1;
      assert xs == xs[..n] + [xs[n]];
      DistinctPrefix(xs[..n], key, xs[n]);
      ArrangedSorts(xs[..n], key);
      ArrangedKeeps(xs[..n], key);
      SameElements(Arranged(xs[..n], key), xs[..n]);
      SameImage(Arranged(xs[..n], key), xs[..n], key);
      InsertSorts(Arranged(xs[..n], key), key, xs[n]);
    }
  }

  /** A sorted list is determined by its elements. */
  lemma {:induction false} SortedUnique<E>(xs: seq<E>, ys: seq<E>, key: E -> string)
    requires Sorted(xs, key) && Sorted(ys, key)
    requires forall x :: x in xs <==> x in ys
    ensures xs == ys
  {
    BothEmpty(xs, ys);
    if xs != [] {
      var n, m := |xs| - 1, |ys| - 1;
      SameLast(xs, ys, key);
      SortedPrefix(xs, key);
      SortedPrefix(ys, key);
      assert xs == xs[..n] + [xs[n]] && ys == ys[..m] + [ys[m]];
      forall x
        ensures x in xs[..n] <==> x in ys[..m]
      {
        assert x in xs <==> x in ys;
      }
      SortedUnique(xs[..n], ys[..m], key);
    }
  }

  lemma BothEmpty<E>(xs: seq<E>, ys: seq<E>)
    requires forall x :: x in xs <==> x in ys
    ensures xs == [] <==> ys == []
  {
    assert xs != [] ==> xs[0] in xs;
    assert ys != [] ==> ys[0] in ys;
  }

  lemma SortedPrefix<E>(xs: seq<E>, key: E -> string)
    requires xs != [] && Sorted(xs, key)
    ensures Sorted(xs[..|xs| - 1], key)
    ensures forall x :: x in xs[..|xs| - 1] <==> x in xs && x != xs[|xs| - 1]
  {
    var n := |xs| - 1;
    assert xs == xs[..n] + [xs[n]];
    SortedAppend(xs[..n], key, xs[n]);
    LessIrreflexive(key(xs[n]));
  }

  lemma SameLast<E>(xs: seq<E>, ys: seq<E>, key: E -> string)
    requires xs != [] && ys != [] && Sorted(xs, key) && Sorted(ys, key)
    requires xs[|xs| - 1] in ys && ys[|ys| - 1] in xs
    ensures xs[|xs| - 1] == ys[|ys| - 1]
  {
    var x, y := xs[|xs| - 1], ys[|ys| - 1];
    if x != y {
      var i :| 0 <= i < |ys| && ys[i] == x;
      var j :| 0 <= j < |xs| && xs[j] == y;
      assert Less(key(ys[i]), key(ys[|ys| - 1]));
      assert Less(key(xs[j]), key(xs[|xs| - 1]));
      LessTransitive(key(x), key(y), key(x));
      LessIrreflexive(key(x));
    }
  }

  /** However a list with distinct keys is sorted, the outcome is the same. */
  lemma SortingIsArranging<E>(xs: seq<E>, ys: seq<E>, key: E -> string)
    requires Distinct(xs, key) && Sorted(ys, key) && multiset(xs) == multiset(ys)
    ensures ys == Arranged(xs, key)
  {
    ArrangedSorts(xs, key);
    ArrangedKeeps(xs, key);
    SameElements(xs, Arranged(xs, key));
    SameElements(xs, ys);
    SortedUnique(ys, Arranged(xs, key), key);
  }

  // ---------------------------------------------------------------- distinct keys

  lemma {:induction false} DistinctIsCardinal<E, K>(xs: seq<E>, key: E -> K)
    ensures |Image(xs, key)| <= |xs|
    ensures Distinct(xs, key) <==> |Image(xs, key)| == |xs|
  {
    if xs != [] {
      var n := |xs| - 1;
      assert xs == xs[..n] + [xs[n]];
      DistinctIsCardinal(xs[..n], key);
      ImageAppend(xs[..n], key, xs[n]);
      if Distinct(xs, key) {
        DistinctPrefix(xs[..n], key, xs[n]);
      } else if Distinct(xs[..n], key) {
        DistinctAppend(xs[..n], key, xs[n]);
      }
    }
  }

  lemma DistinctIgnoresOrder<E, K>(xs: seq<E>, ys: seq<E>, key: E -> K)
    requires |xs| == |ys| && forall x :: x in xs <==> x in ys
    ensures Distinct(xs, key) <==> Distinct(ys, key)
  {
    SameImage(xs, ys, key);
    DistinctIsCardinal(xs, key);
    DistinctIsCardinal(ys, key);
  }

  lemma SortedIsDistinct<E>(xs: seq<E>, key: E -> string)
    requires Sorted(xs, key)
    ensures Distinct(xs, key)
  {
    forall i, j | 0 <= i < j < |xs|
      ensures key(xs[i]) != key(xs[j])
    {
      LessIrreflexive(key(xs[i]));
    }
  }

  // ---------------------------------------------------------------- sorting with a check

  /** No key below an earlier one: what a library sort promises, equal keys in any order. */
  predicate Weakly<E>(xs: seq<E>, key: E -> string) {
    forall i, j :: 0 <= i < j < |xs| ==> !Less(key(xs[j]), key(xs[i]))
  }

  lemma WeaklyAppend<E>(xs: seq<E>, key: E -> string, x: E)
    requires Weakly(xs, key) && (xs != [] ==> !Less(key(x), key(xs[|xs| - 1])))
    ensures Weakly(xs + [x], key)
  {
    var n := |xs|;
    forall i, j | 0 <= i < j < n + 1
      ensures !Less(key((xs + [x])[j]), key((xs + [x])[i]))
    {
      if j == n && i < n - 1 && Less(key(x), key(xs[i])) {
        BelowThrough(key(x), key(xs[i]), key(xs[n - 1]));
      }
    }
  }

  lemma BelowThrough(a: string, b: string, c: string)
    requires Less(a, b) && !Less(c, b)
    ensures Less(a, c)
  {
    LessTotal(b, c);
    if b != c {
      LessTransitive(a, b, c);
    }
  }

  lemma {:induction false} InsertWeakly<E>(xs: seq<E>, key: E -> string, x: E)
    requires Weakly(xs, key)
    ensures Weakly(Insert(xs, key, x), key)
    ensures var r := Insert(xs, key, x); r != [] && (r[|r| - 1] == x || (xs != [] && r[|r| - 1] == xs[|xs| - 1]))
  {
    if xs != [] {
      var n := |xs| - 1;
      if Less(key(xs[n]), key(x)) {
        LessAsymmetric(key(xs[n]), key(x));
        WeaklyAppend(xs, key, x);
      } else {
        InsertWeakly(xs[..n], key, x);
        LessTotal(key(xs[n]), key(x));
        if n > 0 {
          assert !Less(key(xs[n]), key(xs[n - 1]));
        }
        WeaklyAppend(Insert(xs[..n], key, x), key, xs[n]);
      }
    }
  }

  lemma LessAsymmetric(a: string, b: string)
    requires Less(a, b)
    ensures !Less(b, a)
  {
    if Less(b, a) {
      LessTransitive(a, b, a);
      LessIrreflexive(a);
    }
  }

  lemma {:induction false} ArrangedWeakly<E>(xs: seq<E>, key: E -> string)
    ensures Weakly(Arranged(xs, key), key)
  {
    if xs != [] {
      ArrangedWeakly(xs[..|xs| - 1], key);
      InsertWeakly(Arranged(xs[..|xs| - 1], key), key, xs[|xs| - 1]);
    }
  }

  /** A library sort: callers may rely on no more than this. */
  method SortBy<E>(xs: seq<E>, key: E -> string) returns (ys: seq<E>)
    ensures Weakly(ys, key) && multiset(ys) == multiset(xs)
  {
    ArrangedWeakly(xs, key);
    ArrangedKeeps(xs, key);
    ys := Arranged(xs, key);
  }

  predicate AllGood<E>(xs: seq<E>, good: E -> bool) {
    forall i :: 0 <= i < |xs| ==> good(xs[i])
  }

  /** The elements in strict key order, if all are good and no key repeats. */
  function Ordered<E>(xs: seq<E>, key: E -> string, good: E -> bool): Option<seq<E>> {
    if AllGood(xs, good) && Distinct(xs, key) then Some(Arranged(xs, key)) else None
  }

  /** Such an order exists exactly for good elements with distinct keys, and rearranges them. */
  lemma OrderedMeans<E>(xs: seq<E>, key: E -> string, good: E -> bool)
    ensures Ordered(xs, key, good).Some? <==>
              && (forall i :: 0 <= i < |xs| ==> good(xs[i]))
              && (forall i, j :: 0 <= i < j < |xs| ==> key(xs[i]) != key(xs[j]))
    ensures Ordered(xs, key, good).Some? ==>
              var r := Ordered(xs, key, good).value; multiset(r) == multiset(xs) && Sorted(r, key)
  {
    if Distinct(xs, key) {
      ArrangedSorts(xs, key);
      ArrangedKeeps(xs, key);
    }
  }

  lemma AllGoodIgnoresOrder<E>(xs: seq<E>, ys: seq<E>, good: E -> bool)
    requires forall x :: x in xs <==> x in ys
    ensures AllGood(xs, good) <==> AllGood(ys, good)
  {
    assert forall i :: 0 <= i < |xs| ==> xs[i] in ys;
    assert forall i :: 0 <= i < |ys| ==> ys[i] in xs;
  }

  lemma OrderedIgnoresOrder<E>(xs: seq<E>, ys: seq<E>, key: E -> string, good: E -> bool)
    requires |xs| == |ys| && forall x :: x in xs <==> x in ys
    ensures Ordered(xs, key, good) == Ordered(ys, key, good)
  {
    AllGoodIgnoresOrder(xs, ys, good);
    DistinctIgnoresOrder(xs, ys, key);
    if Distinct(xs, key) {
      ArrangedSorts(xs, key);
      ArrangedSorts(ys, key);
      ArrangedKeeps(xs, key);
      ArrangedKeeps(ys, key);
      SameElements(xs, Arranged(xs, key));
      SameElements(ys, Arranged(ys, key));
      SortedUnique(Arranged(xs, key), Arranged(ys, key), key);
    }
  }

  /** Sorting and comparing neighbours finds every repeated key, however ties were broken. */
  method SortChecked<E>(values: seq<E>, key: E -> string, good: E -> bool) returns (r: Option<seq<E>>)
    ensures r == Ordered(values, key, good)
  {
    var sorted := SortBy(values, key);
    SameElements(values, sorted);
    AllGoodIgnoresOrder(values, sorted, good);
    DistinctIgnoresOrder(values, sorted, key);
    for i := 0 to |sorted|
      invariant forall j :: 0 <= j < i ==> good(sorted[j])
      invariant Sorted(sorted[..i], key)
    {
      if !good(sorted[i]) || (i > 0 && key(sorted[i - 1]) == key(sorted[i])) {
        return None;
      }
      StrictStep(sorted, i, key);
    }
    assert sorted[..|sorted|] == sorted;
    SortedIsDistinct(sorted, key);
    SortingIsArranging(values, sorted, key);
    return Some(sorted);
  }

  lemma StrictStep<E>(xs: seq<E>, i: nat, key: E -> string)
    requires i < |xs| && Weakly(xs, key) && Sorted(xs[..i], key)
    requires i > 0 ==> key(xs[i - 1]) != key(xs[i])
    ensures Sorted(xs[..i + 1], key)
  {
    assert xs[..i + 1] == xs[..i] + [xs[i]];
    if i > 0 {
      LessTotal(key(xs[i - 1]), key(xs[i]));
      forall y | y in xs[..i]
        ensures Less(key(y), key(xs[i]))
      {
        var j :| 0 <= j < i && xs[..i][j] == y;
        if j < i - 1 {
          assert Less(key(xs[..i][j]), key(xs[..i][i - 1]));
          LessTransitive(key(y), key(xs[i - 1]), key(xs[i]));
        }
      }
    }
    SortedAppend(xs[..i], key, xs[i]);
  }
}
