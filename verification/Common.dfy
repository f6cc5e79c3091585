/** Small value types and sequence helpers shared by every component model. */
module Common {

  datatype Option<+T> = None | Some(value: T)

  datatype Result<+T, +E> = Ok(value: T) | Err(error: E)

  /** The sequence read backwards. */
  function Reversed<T>(s: seq<T>): (r: seq<T>)
    ensures |r| == |s|
  {
    if s == [] then [] else [s[|s| - 1]] + Reversed(s[..|s| - 1])
  }

  lemma {:induction false} ReversedAt<T>(s: seq<T>, i: nat)
    requires i < |s|
    ensures Reversed(s)[i] == s[|s| - 1 - i]
  {
    if i > 0 {
      ReversedAt(s[..|s| - 1], i - 1);
    }
  }

  /** Positions of the raised flags, in increasing order. */
  function Indexes(flags: seq<bool>): (r: seq<nat>)
    ensures |r| <= |flags|
  {
    if flags == [] then [] else
      var n := |flags| - 1;
      var rest := Indexes(flags[..n]);
      if flags[n] then rest + [n] else rest
  }

  /** Indexes lists raised positions only, without repetition, and misses none. */
  lemma {:induction false} IndexesExact(flags: seq<bool>)
    ensures forall k :: 0 <= k < |Indexes(flags)| ==> Indexes(flags)[k] < |flags| && flags[Indexes(flags)[k]]
    ensures forall j, k :: 0 <= j < k < |Indexes(flags)| ==> Indexes(flags)[j] < Indexes(flags)[k]
    ensures forall i :: 0 <= i < |flags| && flags[i] ==> i in Indexes(flags)
  {
    if flags != [] {
      var n := |flags| - 1;
      IndexesExact(flags[..n]);
      forall i | 0 <= i < |flags| && flags[i]
        ensures i in Indexes(flags)
      {
        if i < n {
          assert flags[..n][i];
        }
      }
    }
  }

  lemma NoIndexes(flags: seq<bool>)
    requires forall i :: 0 <= i < |flags| ==> !flags[i]
    ensures Indexes(flags) == []
  {
    IndexesExact(flags);
  }

  /** Raising a flag beyond every raised flag appends its position. */
  lemma {:induction false} IndexesRaise(flags: seq<bool>, i: nat)
    requires i < |flags|
    requires forall j :: i <= j < |flags| ==> !flags[j]
    ensures Indexes(flags[i := true]) == Indexes(flags) + [i]
  {
    var n := |flags| - 1;
    var raised := flags[i := true];
    if i == n {
      assert raised[..n] == flags[..n];
    } else {
      assert raised[..n] == flags[..n][i := true];
      IndexesRaise(flags[..n], i);
    }
  }

  /** Positions of the raised flags at or above `k`, in decreasing order. */
  function Countdown(flags: seq<bool>, k: nat): (r: seq<nat>)
    requires k <= |flags|
    decreases |flags| - k
  {
    if k == |flags| then [] else
      if flags[k] then Countdown(flags, k + 1) + [k] else Countdown(flags, k + 1)
  }

  /** Moving the last element over keeps what was done plus what is left, read backwards. */
  lemma ReversedShift<T>(done: seq<T>, todo: seq<T>)
    requires todo != []
    ensures done + Reversed(todo) == (done + [todo[|todo| - 1]]) + Reversed(todo[..|todo| - 1])
  {
    Regroup(done, todo[|todo| - 1], Reversed(todo[..|todo| - 1]));
  }

  lemma Regroup<T>(a: seq<T>, x: T, b: seq<T>)
    ensures a + ([x] + b) == (a + [x]) + b
  {
  }

  lemma Associate<T>(a: seq<T>, b: seq<T>, x: T)
    ensures (a + b) + [x] == a + (b + [x])
  {
  }

  lemma ReversedAppend<T>(s: seq<T>, x: T)
    ensures Reversed(s + [x]) == [x] + Reversed(s)
  {
    assert (s + [x])[..|s|] == s;
  }

  /** Counting down over all flags lists exactly their positions, last first. */
  lemma {:induction false} CountdownIsReversedIndexes(flags: seq<bool>, k: nat)
    requires k <= |flags|
    ensures Countdown(flags, k) + Reversed(Indexes(flags[..k])) == Reversed(Indexes(flags))
    decreases |flags| - k
  {
    if k == |flags| {
      assert flags[..k] == flags;
    } else {
      CountdownIsReversedIndexes(flags, k + 1);
      IndexesSplit(flags, k);
      var below := Indexes(flags[..k]);
      ReversedAppend(below, k);
      Regroup(Countdown(flags, k + 1), k, Reversed(below));
    }
  }

  lemma IndexesSplit(flags: seq<bool>, k: nat)
    requires k < |flags|
    ensures Indexes(flags[..k + 1]) == if flags[k] then Indexes(flags[..k]) + [k] else Indexes(flags[..k])
  {
    assert flags[..k + 1][..k] == flags[..k];
  }

  // ---------------------------------------------------------------- all or nothing

  /** The images of the first `k` elements, unless one of them has none. */
  function AllOf<A, B>(xs: seq<A>, k: nat, f: A -> Option<B>): Option<seq<B>>
    requires k <= |xs|
  {
    if k == 0 then Some([]) else
      var before, last := AllOf(xs, k - 1, f), f(xs[k - 1]);
      if before.None? || last.None? then None else Some(before.value + [last.value])
  }

  lemma {:induction false} AllOfFails<A, B>(xs: seq<A>, i: nat, k: nat, f: A -> Option<B>)
    requires i <= k <= |xs| && AllOf(xs, i, f).None?
    ensures AllOf(xs, k, f).None?
  {
    if i < k {
      AllOfFails(xs, i, k - 1, f);
    }
  }

  /** One more element: its image is added, or there is no list of images at all. */
  lemma AllOfStep<A, B>(xs: seq<A>, k: nat, f: A -> Option<B>)
    requires k < |xs| && AllOf(xs, k, f).Some?
    ensures f(xs[k]).None? ==> AllOf(xs, |xs|, f).None?
    ensures f(xs[k]).Some? ==> AllOf(xs, k + 1, f) == Some(AllOf(xs, k, f).value + [f(xs[k]).value])
  {
    if f(xs[k]).None? {
      AllOfFails(xs, k + 1, |xs|, f);
    }
  }

  lemma {:induction false} AllOfMeans<A, B>(xs: seq<A>, k: nat, f: A -> Option<B>)
    requires k <= |xs|
    ensures AllOf(xs, k, f).Some? <==> forall i :: 0 <= i < k ==> f(xs[i]).Some?
    ensures AllOf(xs, k, f).Some? ==>
              |AllOf(xs, k, f).value| == k && forall i :: 0 <= i < k ==> Some(AllOf(xs, k, f).value[i]) == f(xs[i])
  {
    if k > 0 {
      AllOfMeans(xs, k - 1, f);
    }
  }

  lemma AllOfIncluded<A, B>(xs: seq<A>, ys: seq<A>, f: A -> Option<B>)
    requires AllOf(ys, |ys|, f).Some? && forall x :: x in xs ==> x in ys
    ensures AllOf(xs, |xs|, f).Some?
    ensures forall z :: z in AllOf(xs, |xs|, f).value ==> z in AllOf(ys, |ys|, f).value
  {
    AllOfMeans(xs, |xs|, f);
    AllOfMeans(ys, |ys|, f);
    assert forall i :: 0 <= i < |xs| ==> xs[i] in ys;
    var a, b := AllOf(xs, |xs|, f).value, AllOf(ys, |ys|, f).value;
    forall z | z in a
      ensures z in b
    {
      var i :| 0 <= i < |a| && a[i] == z;
      var j :| 0 <= j < |ys| && ys[j] == xs[i];
      assert b[j] == z;
    }
  }

  /** Lists with the same elements have images with the same elements. */
  lemma AllOfSameElements<A, B>(xs: seq<A>, ys: seq<A>, f: A -> Option<B>)
    requires |xs| == |ys| && forall x :: x in xs <==> x in ys
    ensures var a, b := AllOf(xs, |xs|, f), AllOf(ys, |ys|, f);
            && (a.Some? <==> b.Some?)
            && (a.Some? ==> |a.value| == |b.value| && forall z :: z in a.value <==> z in b.value)
  {
    AllOfMeans(xs, |xs|, f);
    AllOfMeans(ys, |ys|, f);
    if AllOf(xs, |xs|, f).Some? {
      AllOfIncluded(ys, xs, f);
    }
    if AllOf(ys, |ys|, f).Some? {
      AllOfIncluded(xs, ys, f);
    }
  }

  // ---------------------------------------------------------------- loops that stop early

  /** The state after at most `k` steps, stopping as soon as it is done. */
  function Iterate<S>(start: S, k: nat, done: S -> bool, step: (S, nat) -> S): S {
    if k == 0 then start else
      var s := Iterate(start, k - 1, done, step);
      if done(s) then s else step(s, k - 1)
  }

  lemma {:induction false} IterateEnds<S>(start: S, i: nat, k: nat, done: S -> bool, step: (S, nat) -> S)
    requires i <= k && done(Iterate(start, i, done, step))
    ensures Iterate(start, k, done, step) == Iterate(start, i, done, step)
  {
    if i < k {
      IterateEnds(start, i, k - 1, done, step);
    }
  }
}
