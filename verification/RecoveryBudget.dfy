/** A rolling-window budget of recovery attempts that forgets attempts which left the window. */
module RecoveryBudget {
  import opened Common

  datatype Limits = Limits(maximum: nat, window: nat)

  /** The attempts at or after `threshold`, in order. */
  function Recent(attempts: seq<int>, threshold: int): seq<int> {
    if attempts == [] then [] else
      var before, last := Recent(attempts[..|attempts| - 1], threshold), attempts[|attempts| - 1];
      if last >= threshold then before + [last] else before
  }

  /** The call is earlier than the last attempt remembered: the history is dropped. */
  predicate Before(now: int, attempts: seq<int>) {
    attempts != [] && now < attempts[|attempts| - 1]
  }

  /** The remembered attempts after a call at `now`, and the answer. */
  function Consumed(limits: Limits, attempts: seq<int>, now: int): (seq<int>, bool) {
    var monotone := if Before(now, attempts) then [] else attempts;
    var kept := Recent(monotone, now - limits.window);
    if |kept| >= limits.maximum then (kept, false) else (kept + [now], true)
  }

  // ---------------------------------------------------------------- whole histories of calls

  /** What is remembered, all that was ever admitted, and the last answer. */
  datatype Ledger = Ledger(remembered: seq<int>, admitted: seq<int>, answer: bool)

  const EMPTY := Ledger([], [], true)

  /** The ledger after one more call. */
  function Entered(limits: Limits, l: Ledger, now: nat): Ledger {
    var (remembered, ok) := Consumed(limits, l.remembered, now);
    Ledger(remembered, if ok then l.admitted + [now] else l.admitted, ok)
  }

  /** The ledger after all the calls. */
  function Replay(limits: Limits, l: Ledger, times: seq<nat>): Ledger
    decreases |times|
  {
    if times == [] then l else Replay(limits, Entered(limits, l, times[0]), times[1..])
  }

  predicate StepsBack(l: Ledger, now: int) {
    Before(now, l.remembered)
  }

  /** None of the calls is earlier than the last attempt remembered when it is made. */
  predicate Steady(limits: Limits, l: Ledger, times: seq<nat>)
    decreases |times|
  {
    times != [] ==> !StepsBack(l, times[0]) && Steady(limits, Entered(limits, l, times[0]), times[1..])
  }

  /** How many attempts lie in the closed interval. */
  function CountIn(attempts: seq<int>, lo: int, hi: int): nat {
    if attempts == [] then 0 else
      CountIn(attempts[..|attempts| - 1], lo, hi) + if lo <= attempts[|attempts| - 1] <= hi then 1 else 0
  }

  /** How many admitted attempts the window from `lo` holds. */
  function Held(limits: Limits, l: Ledger, lo: int): nat {
    CountIn(l.admitted, lo, lo + limits.window)
  }

  /** The window from `lo` holds no more admitted attempts than the maximum. */
  predicate Within(limits: Limits, l: Ledger, lo: int) {
    Held(limits, l, lo) <= limits.maximum
  }

  predicate AtMost(attempts: seq<int>, bound: int) {
    forall i :: 0 <= i < |attempts| ==> attempts[i] <= bound
  }

  /** All that is forgotten is what left the window of the last admitted attempt. */
  predicate Faithful(limits: Limits, l: Ledger) {
    if l.admitted == [] then l.remembered == [] else
      var last := l.admitted[|l.admitted| - 1];
      AtMost(l.admitted, last) && l.remembered == Recent(l.admitted, last - limits.window)
  }

  ghost predicate Inv(limits: Limits, l: Ledger) {
    Faithful(limits, l) && |l.remembered| <= limits.maximum && forall lo :: Within(limits, l, lo)
  }

  // ---------------------------------------------------------------- recent attempts

  lemma RecentAppend(attempts: seq<int>, x: int, threshold: int)
    ensures Recent(attempts + [x], threshold)
         == if x >= threshold then Recent(attempts, threshold) + [x] else Recent(attempts, threshold)
  {
    assert (attempts + [x])[..|attempts|] == attempts;
  }

  lemma {:induction false} RecentOfRecent(attempts: seq<int>, a: int, b: int)
    requires a <= b
    ensures Recent(Recent(attempts, a), b) == Recent(attempts, b)
  {
    if attempts != [] {
      var n := |attempts| - 1;
      RecentOfRecent(attempts[..n], a, b);
      RecentAppend(Recent(attempts[..n], a), attempts[n], b);
    }
  }

  lemma {:induction false} RecentCounts(attempts: seq<int>, lo: int, hi: int)
    requires AtMost(attempts, hi)
    ensures |Recent(attempts, lo)| == CountIn(attempts, lo, hi)
  {
    if attempts != [] {
      RecentCounts(attempts[..|attempts| - 1], lo, hi);
    }
  }

  lemma {:induction false} RecentAtMost(attempts: seq<int>, threshold: int, bound: int)
    requires AtMost(attempts, bound)
    ensures AtMost(Recent(attempts, threshold), bound)
  {
    if attempts != [] {
      RecentAtMost(attempts[..|attempts| - 1], threshold, bound);
    }
  }

  lemma {:induction false} RecentShrinks(attempts: seq<int>, threshold: int)
    ensures |Recent(attempts, threshold)| <= |attempts|
    ensures |Recent(attempts, threshold)| == |attempts| ==> Recent(attempts, threshold) == attempts
  {
    if attempts != [] {
      RecentShrinks(attempts[..|attempts| - 1], threshold);
    }
  }

  lemma CountAppend(attempts: seq<int>, x: int, lo: int, hi: int)
    ensures CountIn(attempts + [x], lo, hi) == CountIn(attempts, lo, hi) + if lo <= x <= hi then 1 else 0
  {
    assert (attempts + [x])[..|attempts|] == attempts;
  }

  lemma {:induction false} CountNarrows(attempts: seq<int>, lo: int, hi: int, lo': int, hi': int)
    requires lo' <= lo && AtMost(attempts, hi')
    ensures CountIn(attempts, lo, hi) <= CountIn(attempts, lo', hi')
  {
    if attempts != [] {
      CountNarrows(attempts[..|attempts| - 1], lo, hi, lo', hi');
    }
  }

  // ---------------------------------------------------------------- runs that never step back

  /** The last attempt remembered is the last one admitted. */
  lemma LastRemembered(limits: Limits, l: Ledger)
    requires Faithful(limits, l) && l.admitted != []
    ensures l.remembered != [] && l.remembered[|l.remembered| - 1] == l.admitted[|l.admitted| - 1]
  {
  }

  lemma LastBounds(limits: Limits, l: Ledger, now: int)
    requires Faithful(limits, l) && !StepsBack(l, now)
    ensures AtMost(l.admitted, now) && AtMost(l.remembered, now)
    ensures Recent(l.remembered, now - limits.window) == Recent(l.admitted, now - limits.window)
  {
    if l.admitted != [] {
      LastRemembered(limits, l);
      var last := l.admitted[|l.admitted| - 1];
      RecentAtMost(l.admitted, last - limits.window, last);
      RecentOfRecent(l.admitted, last - limits.window, now - limits.window);
    }
  }

  lemma StepAnswers(limits: Limits, l: Ledger, now: nat)
    requires Faithful(limits, l) && !StepsBack(l, now)
    ensures Entered(limits, l, now).answer <==> CountIn(l.admitted, now - limits.window, now) < limits.maximum
  {
    LastBounds(limits, l, now);
    RecentCounts(l.admitted, now - limits.window, now);
  }

  /** A refused call that does not step back changes nothing. */
  lemma RefusalKeeps(limits: Limits, l: Ledger, now: nat)
    requires |l.remembered| <= limits.maximum && !StepsBack(l, now) && !Entered(limits, l, now).answer
    ensures Entered(limits, l, now) == l.(answer := false)
  {
    RecentShrinks(l.remembered, now - limits.window);
  }

  lemma AdmissionKeeps(limits: Limits, l: Ledger, now: nat)
    requires Faithful(limits, l) && !StepsBack(l, now) && Entered(limits, l, now).answer
    ensures Faithful(limits, Entered(limits, l, now))
  {
    LastBounds(limits, l, now);
    RecentAppend(l.admitted, now, now - limits.window);
  }

  /** A call admitted because its own window has room overflows no window. */
  lemma NoOverflow(maximum: nat, window: nat, admitted: seq<int>, now: int, lo: int)
    requires AtMost(admitted, now) && CountIn(admitted, lo, lo + window) <= maximum
    requires CountIn(admitted, now - window, now) < maximum
    ensures CountIn(admitted + [now], lo, lo + window) <= maximum
  {
    CountAppend(admitted, now, lo, lo + window);
    if lo <= now <= lo + window {
      CountNarrows(admitted, lo, lo + window, now - window, now);
    }
  }

  lemma AdmissionFits(limits: Limits, l: Ledger, now: nat, lo: int)
    requires Faithful(limits, l) && !StepsBack(l, now) && Entered(limits, l, now).answer && Within(limits, l, lo)
    ensures Within(limits, Entered(limits, l, now), lo)
  {
    LastBounds(limits, l, now);
    StepAnswers(limits, l, now);
    NoOverflow(limits.maximum, limits.window, l.admitted, now, lo);
  }

  lemma StepKeeps(limits: Limits, l: Ledger, now: nat)
    requires Inv(limits, l) && !StepsBack(l, now)
    ensures Inv(limits, Entered(limits, l, now))
  {
    if Entered(limits, l, now).answer {
      AdmissionKeeps(limits, l, now);
      forall lo: int
        ensures Within(limits, Entered(limits, l, now), lo)
      {
        AdmissionFits(limits, l, now, lo);
      }
    } else {
      RefusalKeeps(limits, l, now);
      assert forall lo :: Within(limits, l, lo) ==> Within(limits, l.(answer := false), lo);
    }
  }

  lemma {:induction false} SteadyRunKeeps(limits: Limits, l: Ledger, times: seq<nat>)
    requires Inv(limits, l) && Steady(limits, l, times)
    ensures Inv(limits, Replay(limits, l, times))
    decreases |times|
  {
    if times != [] {
      StepKeeps(limits, l, times[0]);
      SteadyRunKeeps(limits, Entered(limits, l, times[0]), times[1..]);
    }
  }

  /** Over any run that never steps back, only what left the window of the last admitted attempt is forgotten. */
  lemma RememberedIsRecent(limits: Limits, times: seq<nat>)
    requires Steady(limits, EMPTY, times)
    ensures Faithful(limits, Replay(limits, EMPTY, times))
    ensures |Replay(limits, EMPTY, times).remembered| <= limits.maximum
  {
    SteadyRunKeeps(limits, EMPTY, times);
  }

  /**
   * After a run that never steps back, a call that does not either is answered by the full
   * history: it is admitted exactly when fewer than the maximum of all admitted attempts lie in
   * [now - window, now].
   */
  lemma AnswerIsExact(limits: Limits, times: seq<nat>, now: nat)
    requires Steady(limits, EMPTY, times) && !StepsBack(Replay(limits, EMPTY, times), now)
    ensures var l := Replay(limits, EMPTY, times);
            Entered(limits, l, now).answer <==> CountIn(l.admitted, now - limits.window, now) < limits.maximum
  {
    SteadyRunKeeps(limits, EMPTY, times);
    StepAnswers(limits, Replay(limits, EMPTY, times), now);
  }

  /** No closed interval as long as the window ever holds more admitted attempts than the maximum. */
  lemma NoWindowOverflows(limits: Limits, times: seq<nat>, lo: int)
    requires Steady(limits, EMPTY, times)
    ensures Within(limits, Replay(limits, EMPTY, times), lo)
  {
    SteadyRunKeeps(limits, EMPTY, times);
  }

  /** None of the calls is earlier than the one before it. */
  predicate NonDecreasing(times: seq<nat>) {
    forall i :: 0 < i < |times| ==> times[i - 1] <= times[i]
  }

  lemma {:induction false} SteadyAfter(limits: Limits, l: Ledger, times: seq<nat>)
    requires NonDecreasing(times) && (times != [] ==> AtMost(l.remembered, times[0]))
    ensures Steady(limits, l, times)
    decreases |times|
  {
    if times != [] {
      RecentAtMost(l.remembered, times[0] - limits.window, times[0]);
      var rest := times[1..];
      assert forall i :: 0 < i < |rest| ==> rest[i - 1] == times[i] && rest[i] == times[i + 1];
      SteadyAfter(limits, Entered(limits, l, times[0]), rest);
    }
  }

  /** Calls in the order of their times never step back, whatever the limits. */
  lemma OrderedCallsAreSteady(limits: Limits, times: seq<nat>)
    requires NonDecreasing(times)
    ensures Steady(limits, EMPTY, times)
  {
    SteadyAfter(limits, EMPTY, times);
  }

  // ---------------------------------------------------------------- when time steps back

  /** From here on, calls that do not step back keep every window within the maximum. */
  ghost predicate Safe(limits: Limits, l: Ledger) {
    forall more: seq<nat>, lo: int ::
      Steady(limits, l, more) ==> Within(limits, Replay(limits, l, more), lo)
  }

  /** `n` calls at `x` fit in. */
  predicate HasRoom(limits: Limits, l: Ledger, x: int, n: nat) {
    AtMost(l.remembered, x) && |Recent(l.remembered, x - limits.window)| + n <= limits.maximum
  }

  /** What is kept for a call at `x` is kept for the next one, and the call with it. */
  lemma KeptAgain(attempts: seq<int>, x: int, threshold: int)
    requires AtMost(attempts, x) && threshold <= x
    ensures var more := Recent(attempts, threshold) + [x];
            AtMost(more, x) && Recent(more, threshold) == more
  {
    RecentAtMost(attempts, threshold, x);
    RecentOfRecent(attempts, threshold, threshold);
    RecentAppend(Recent(attempts, threshold), x, threshold);
  }

  lemma RoomEnters(limits: Limits, l: Ledger, x: nat)
    requires HasRoom(limits, l, x, 1)
    ensures !StepsBack(l, x)
    ensures Entered(limits, l, x) == Ledger(Recent(l.remembered, x - limits.window) + [x], l.admitted + [x], true)
  {
  }

  lemma RoomShrinks(limits: Limits, l: Ledger, x: nat, n: nat)
    requires n > 0 && HasRoom(limits, l, x, n)
    ensures HasRoom(limits, Entered(limits, l, x), x, n - 1)
  {
    var kept := Recent(l.remembered, x - limits.window);
    KeptAgain(l.remembered, x, x - limits.window);
    RoomEnters(limits, l, x);
    assert Entered(limits, l, x).remembered == kept + [x];
  }

  /** A call at `x` that finds room is one more in the window. */
  lemma RoomCounts(limits: Limits, l: Ledger, x: nat, lo: int)
    requires HasRoom(limits, l, x, 1) && lo <= x <= lo + limits.window
    ensures !StepsBack(l, x) && Held(limits, Entered(limits, l, x), lo) == Held(limits, l, lo) + 1
  {
    RoomEnters(limits, l, x);
    CountAppend(l.admitted, x, lo, lo + limits.window);
  }

  lemma FirstCall(limits: Limits, l: Ledger, x: nat, rest: seq<nat>)
    ensures Replay(limits, l, [x] + rest) == Replay(limits, Entered(limits, l, x), rest)
    ensures Steady(limits, l, [x] + rest) <==> !StepsBack(l, x) && Steady(limits, Entered(limits, l, x), rest)
  {
    assert ([x] + rest)[1..] == rest;
  }

  /** As long as there is room, calls at `x` do not step back and are all admitted. */
  lemma {:induction false} FillRoom(limits: Limits, l: Ledger, x: nat, n: nat, lo: int) returns (more: seq<nat>)
    requires HasRoom(limits, l, x, n) && lo <= x <= lo + limits.window
    ensures Steady(limits, l, more)
    ensures Held(limits, Replay(limits, l, more), lo) == Held(limits, l, lo) + n
    decreases n
  {
    if n == 0 {
      more := [];
    } else {
      RoomShrinks(limits, l, x, n);
      RoomCounts(limits, l, x, lo);
      var rest := FillRoom(limits, Entered(limits, l, x), x, n - 1, lo);
      FirstCall(limits, l, x, rest);
      more := [x] + rest;
    }
  }

  lemma {:induction false} CountsLast(attempts: seq<int>, lo: int, hi: int)
    requires attempts != [] && lo <= attempts[|attempts| - 1] <= hi
    ensures CountIn(attempts, lo, hi) >= 1
  {
  }

  /** A call that steps back is admitted, and nothing else is remembered. */
  lemma StepBackForgets(limits: Limits, l: Ledger, now: nat)
    requires StepsBack(l, now) && limits.maximum > 0
    ensures Entered(limits, l, now) == Ledger([now], l.admitted + [now], true)
  {
    assert Recent([], now - limits.window) + [now] == [now];
  }

  lemma RecentOfOne(x: int, threshold: int)
    ensures Recent([x], threshold) == if x >= threshold then [x] else []
  {
    assert [x][..0] == [];
  }

  /** The last attempt's window still holds the early call: one less fits, and it overflows. */
  lemma NearOverflows(limits: Limits, after: Ledger, now: nat, last: nat) returns (more: seq<nat>)
    requires after.remembered == [now] && last - limits.window <= now < last && limits.maximum > 0
    requires Held(limits, after, now) >= 2
    ensures Steady(limits, after, more) && !Within(limits, Replay(limits, after, more), now)
  {
    RecentOfOne(now, last - limits.window);
    more := FillRoom(limits, after, last, limits.maximum - 1, now);
  }

  /** The early call lies before the last attempt's window, which is filled a second time. */
  lemma FarOverflows(limits: Limits, after: Ledger, now: nat, last: nat) returns (more: seq<nat>)
    requires after.remembered == [now] && now < last - limits.window
    requires Held(limits, after, last) >= 1
    ensures Steady(limits, after, more) && !Within(limits, Replay(limits, after, more), last)
  {
    RecentOfOne(now, last - limits.window);
    more := FillRoom(limits, after, last, limits.maximum, last);
  }

  /** What the windows from the early call and from the forgotten attempt hold. */
  lemma HeldAfterStepBack(limits: Limits, l: Ledger, now: nat, lo: int)
    requires Faithful(limits, l) && StepsBack(l, now) && limits.maximum > 0
    requires l.admitted != []
    requires lo <= l.admitted[|l.admitted| - 1] <= lo + limits.window
    ensures Held(limits, Entered(limits, l, now), lo) >= if lo <= now then 2 else 1
  {
    LastRemembered(limits, l);
    StepBackForgets(limits, l, now);
    CountsLast(l.admitted, lo, lo + limits.window);
    CountAppend(l.admitted, now, lo, lo + limits.window);
  }

  /** The steady calls that overflow a window after a step back fill the room left, at the forgotten attempt. */
  lemma StepBackOverflows(limits: Limits, l: Ledger, now: nat) returns (more: seq<nat>, lo: int)
    requires Inv(limits, l) && StepsBack(l, now)
    ensures var after := Entered(limits, l, now);
            Steady(limits, after, more) && !Within(limits, Replay(limits, after, more), lo)
  {
    LastRemembered(limits, l);
    var last: nat := l.admitted[|l.admitted| - 1];
    StepBackForgets(limits, l, now);
    lo := if now >= last - limits.window then now else last;
    HeldAfterStepBack(limits, l, now, lo);
    if now >= last - limits.window {
      more := NearOverflows(limits, Entered(limits, l, now), now, last);
    } else {
      more := FarOverflows(limits, Entered(limits, l, now), now, last);
    }
  }

  lemma StepSafeExactly(limits: Limits, l: Ledger, now: nat)
    requires Inv(limits, l)
    ensures Safe(limits, Entered(limits, l, now)) <==> !StepsBack(l, now)
  {
    if StepsBack(l, now) {
      var more, lo := StepBackOverflows(limits, l, now);
      assert !Within(limits, Replay(limits, Entered(limits, l, now), more), lo);
    } else {
      StepKeeps(limits, l, now);
      InvIsSafe(limits, Entered(limits, l, now));
    }
  }

  lemma InvIsSafe(limits: Limits, l: Ledger)
    requires Inv(limits, l)
    ensures Safe(limits, l)
  {
    forall more: seq<nat>, lo: int | Steady(limits, l, more)
      ensures Within(limits, Replay(limits, l, more), lo)
    {
      SteadyRunKeeps(limits, l, more);
    }
  }

  /**
   * With any fixed limits, after a run that never stepped back: every window stays within the
   * maximum whatever steady calls follow the one at `now`, exactly when that call does not step back.
   */
  lemma NextCallDecides(limits: Limits, times: seq<nat>, now: nat)
    requires Steady(limits, EMPTY, times)
    ensures var l := Replay(limits, EMPTY, times);
            Safe(limits, Entered(limits, l, now)) <==> !StepsBack(l, now)
  {
    SteadyRunKeeps(limits, EMPTY, times);
    StepSafeExactly(limits, Replay(limits, EMPTY, times), now);
  }

  /** The ledger is safe at every moment of the run. */
  ghost predicate SafeThroughout(limits: Limits, l: Ledger, times: seq<nat>)
    decreases |times|
  {
    Safe(limits, l) && (times != [] ==> SafeThroughout(limits, Entered(limits, l, times[0]), times[1..]))
  }

  lemma {:induction false} SafeExactly(limits: Limits, l: Ledger, times: seq<nat>)
    requires Inv(limits, l)
    ensures SafeThroughout(limits, l, times) <==> Steady(limits, l, times)
    decreases |times|
  {
    InvIsSafe(limits, l);
    if times != [] {
      StepSafeExactly(limits, l, times[0]);
      if !StepsBack(l, times[0]) {
        StepKeeps(limits, l, times[0]);
        SafeExactly(limits, Entered(limits, l, times[0]), times[1..]);
      } else {
        assert !Safe(limits, Entered(limits, l, times[0]));
      }
    }
  }

  /**
   * With any fixed limits and calls at any times, the bound is safe at every moment, whatever
   * steady calls follow, exactly when no call was earlier than the last attempt then remembered.
   */
  lemma BoundedExactly(limits: Limits, times: seq<nat>)
    ensures SafeThroughout(limits, EMPTY, times) <==> Steady(limits, EMPTY, times)
  {
    SafeExactly(limits, EMPTY, times);
  }

  /** One step back is enough: a budget of one attempt per ten milliseconds admits two. */
  lemma SteppingBackOverflows()
    ensures !Within(Limits(1, 10), Replay(Limits(1, 10), EMPTY, [5, 4]), 0)
  {
    var limits := Limits(1, 10);
    assert Recent([], -5) + [5] == [5];
    assert Entered(limits, EMPTY, 5) == Ledger([5], [5], true);
    StepBackForgets(limits, Ledger([5], [5], true), 4);
    assert [5] + [4] == [5, 4] && [5, 4][1..] == [4];
    CountAppend([], 5, 0, 10);
    CountAppend([5], 4, 0, 10);
  }

  // ---------------------------------------------------------------- the budget object

  datatype TypeError = TypeError

  class RollingRecoveryBudget {
    const maximumAttempts: nat
    const windowMs: nat
    var attempts: seq<int>

    constructor (maximumAttempts: nat, windowMs: nat)
      ensures this.maximumAttempts == maximumAttempts && this.windowMs == windowMs && attempts == []
    {
      this.maximumAttempts, this.windowMs, attempts := maximumAttempts, windowMs, [];
    }

    /** Builds a budget, or refuses limits outside 1..10 attempts and one millisecond to one day. */
    static method Make(maximumAttempts: int, windowMs: int) returns (r: Result<RollingRecoveryBudget, TypeError>)
      ensures r.Ok? <==> 1 <= maximumAttempts <= 10 && 1 <= windowMs <= 86_400_000
      ensures r.Ok? ==> fresh(r.value) && r.value.attempts == []
      ensures r.Ok? ==> r.value.maximumAttempts == maximumAttempts && r.value.windowMs == windowMs
    {
      if maximumAttempts < 1 || maximumAttempts > 10 || windowMs < 1 || windowMs > 86_400_000 {
        return Err(TypeError);
      }
      var budget := new RollingRecoveryBudget(maximumAttempts, windowMs);
      r := Ok(budget);
    }

    method Consume(now: int) returns (r: Result<bool, TypeError>)
      modifies this`attempts
      ensures now < 0 ==> r.Err? && attempts == old(attempts)
      ensures now >= 0 ==>
                r.Ok? && (attempts, r.value) == Consumed(Limits(maximumAttempts, windowMs), old(attempts), now)
    {
      if now < 0 {
        return Err(TypeError);
      }
      var monotone := attempts;
      if monotone != [] && now < monotone[|monotone| - 1] {
        monotone := [];
      }
      var threshold := now - windowMs;
      var kept := [];
      for i := 0 to |monotone|
        invariant kept == Recent(monotone[..i], threshold)
      {
        assert monotone[..i + 1][..i] == monotone[..i];
        if monotone[i] >= threshold {
          kept := kept + [monotone[i]];
        }
      }
      assert monotone[..|monotone|] == monotone;
      attempts := kept;
      if |attempts| >= maximumAttempts {
        return Ok(false);
      }
      attempts := attempts + [now];
      r := Ok(true);
    }

    method Reset()
      modifies this`attempts
      ensures attempts == []
    {
      attempts := [];
    }
  }
}
