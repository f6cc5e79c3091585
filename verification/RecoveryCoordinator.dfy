/**
 * The bounded recovery coordinator: one pending request, one timer, one asynchronous attempt,
 * availability changes, and generations that disown what an earlier request left behind.
 */
module RecoveryCoordinator {
  import opened Common

  datatype Outcome = Success | Retry | Stop   // a rejected attempt counts as Retry

  /** A suspended attempt: the generation it was started for and whether its signal was aborted. */
  datatype Attempt = Attempt(gen: nat, aborted: bool)

  datatype Timer = Timer(gen: nat, delay: nat)

  /** What callers can see of a run. */
  datatype Event =
    | Requested                                          // a request that was not already pending
    | Resumed                                            // available again, with a request and no attempt
    | Settled(live: bool, result: Outcome, aborted: bool)
    | Exhausted

  datatype State = State(
    available: bool,
    pending: bool,
    inFlight: bool,
    attemptIndex: nat,
    timer: Option<Timer>,
    controller: Option<nat>,       // the attempt whose signal can still be aborted
    generation: nat,
    attempts: map<nat, Attempt>,   // every attempt that has not settled
    nextID: nat,
    log: seq<Event>)

  const INITIAL := State(true, false, false, 0, None, None, 0, map[], 0, [])

  datatype Input =
    | Request
    | SetAvailable(available: bool)
    | Cancel
    | Fire                                     // the timer, if one is set, runs out
    | Settle(id: nat, result: Outcome)         // an attempt, if outstanding, resolves or rejects

  type Delays = d: seq<nat> | |d| > 0 witness [1000, 3000, 8000]

  function Schedule(s: State, delay: nat): State {
    if !s.pending || !s.available || s.timer.Some? then s else s.(timer := Some(Timer(s.generation, delay)))
  }

  function Abort(s: State): State {
    if s.controller.Some? && s.controller.value in s.attempts
    then s.(attempts := s.attempts[s.controller.value := s.attempts[s.controller.value].(aborted := true)])
    else s
  }

  function Cancelled(s: State): State {
    Abort(s).(generation := s.generation + 1, controller := None, pending := false, attemptIndex := 0, timer := None)
  }

  function Ran(s: State, gen: nat): State {
    if gen != s.generation || !s.pending || !s.available || s.inFlight then s
    else s.(inFlight := true, controller := Some(s.nextID), attempts := s.attempts[s.nextID := Attempt(gen, false)],
            nextID := s.nextID + 1)
  }

  /** The state after a settled attempt is taken off and logged, before its outcome counts. */
  function Logged(s: State, id: nat, result: Outcome): State
    requires id in s.attempts
  {
    var a := s.attempts[id];
    s.(inFlight := false, attempts := s.attempts - {id},
       controller := if s.controller == Some(id) then None else s.controller,
       log := s.log + [Settled(a.gen == s.generation && s.pending, result, a.aborted)])
  }

  function Settling(delays: Delays, s: State, id: nat, result: Outcome): State {
    if id !in s.attempts then s else
      var a := s.attempts[id];
      if a.gen == s.generation && s.pending then Concluded(delays, Logged(s, id, result), a.aborted, result)
      else Logged(s, id, result)
  }

  /** What the outcome of the current request's attempt leads to. */
  function Concluded(delays: Delays, s: State, aborted: bool, result: Outcome): State {
    if aborted then Schedule(s, 0)
    else if result != Retry then Cancelled(s)
    else if s.attemptIndex + 1 >= |delays| then
      var s' := Cancelled(s.(attemptIndex := s.attemptIndex + 1));
      s'.(log := s'.log + [Exhausted])
    else Schedule(s.(attemptIndex := s.attemptIndex + 1), delays[s.attemptIndex + 1])
  }

  function Step(delays: Delays, s: State, input: Input): State {
    match input
    case Request =>
      if s.pending then s
      else Schedule(s.(pending := true, attemptIndex := 0, log := s.log + [Requested]), delays[0])
    case SetAvailable(available) =>
      if s.available == available then s
      else if !available then Abort(s.(available := false, timer := None))
      else if s.pending && !s.inFlight then Schedule(s.(available := true, log := s.log + [Resumed]), 0)
      else s.(available := true)
    case Cancel => Cancelled(s)
    case Fire => if s.timer.None? then s else Ran(s.(timer := None), s.timer.value.gen)
    case Settle(id, result) => Settling(delays, s, id, result)
  }

  function Run(delays: Delays, inputs: seq<Input>): State {
    if inputs == [] then INITIAL else Step(delays, Run(delays, inputs[..|inputs| - 1]), inputs[|inputs| - 1])
  }

  // ---------------------------------------------------------------- what every run keeps

  /** Retry outcomes, neither aborted nor superseded, since the last request. */
  function RetriesSinceRequest(log: seq<Event>): nat {
    if log == [] then 0 else
      var before, e := RetriesSinceRequest(log[..|log| - 1]), log[|log| - 1];
      if e.Requested? then 0
      else if e.Settled? && e.live && !e.aborted && e.result.Retry? then before + 1
      else before
  }

  lemma LogAppend(log: seq<Event>, e: Event)
    ensures RetriesSinceRequest(log + [e])
         == if e.Requested? then 0
            else if e.Settled? && e.live && !e.aborted && e.result.Retry? then RetriesSinceRequest(log) + 1
            else RetriesSinceRequest(log)
  {
    assert (log + [e])[..|log|] == log;
  }

  /**
   * How long the next attempt has to wait: the delay of the current try after a request or a
   * counted retry, and not at all after a resumption or an aborted attempt.
   */
  function Due(delays: Delays, log: seq<Event>): nat {
    if log == [] then 0 else
      var before, e := log[..|log| - 1], log[|log| - 1];
      match e
      case Requested => delays[0]
      case Resumed => 0
      case Settled(live, _, aborted) =>
        if !live then Due(delays, before)
        else if !aborted && RetriesSinceRequest(log) < |delays| then delays[RetriesSinceRequest(log)] else 0
      case Exhausted => Due(delays, before)
  }

  lemma DueAppend(delays: Delays, log: seq<Event>, e: Event)
    ensures var all := log + [e];
            Due(delays, all) == match e
              case Requested => delays[0]
              case Resumed => 0
              case Settled(live, _, aborted) =>
                if !live then Due(delays, log)
                else if !aborted && RetriesSinceRequest(all) < |delays| then delays[RetriesSinceRequest(all)] else 0
              case Exhausted => Due(delays, log)
  {
    assert (log + [e])[..|log|] == log;
  }

  /** Every report of exhaustion follows exactly one retry outcome per configured delay. */
  predicate ExhaustionsEarned(delays: Delays, log: seq<Event>) {
    log != [] ==>
      var before := log[..|log| - 1];
      ExhaustionsEarned(delays, before) && (log[|log| - 1].Exhausted? ==> RetriesSinceRequest(before) == |delays|)
  }

  lemma EarnedAppend(delays: Delays, log: seq<Event>, e: Event)
    ensures ExhaustionsEarned(delays, log + [e]) <==>
              ExhaustionsEarned(delays, log) && (e.Exhausted? ==> RetriesSinceRequest(log) == |delays|)
  {
    assert (log + [e])[..|log|] == log;
  }

  predicate AttemptsOk(s: State) {
    && (s.inFlight <==> s.attempts != map[])
    && (forall i, j :: i in s.attempts && j in s.attempts ==> i == j)
    && (forall i :: i in s.attempts ==>
          && s.attempts[i].gen <= s.generation
          && (s.attempts[i].gen == s.generation <==> s.controller == Some(i))
          && (if s.attempts[i].gen == s.generation then s.pending && (!s.available ==> s.attempts[i].aborted)
              else s.attempts[i].aborted))
    && (s.controller.Some? ==> s.controller.value in s.attempts)
  }

  predicate TimerOk(delays: Delays, s: State) {
    s.timer.Some? ==>
      && s.available && s.pending && s.timer.value.gen == s.generation && s.controller.None?
      && s.timer.value.delay == Due(delays, s.log)
  }

  predicate CountOk(delays: Delays, s: State) {
    && (s.pending ==> s.attemptIndex == RetriesSinceRequest(s.log) < |delays|)
    && ExhaustionsEarned(delays, s.log)
  }

  predicate Inv(delays: Delays, s: State) {
    AttemptsOk(s) && TimerOk(delays, s) && CountOk(delays, s)
  }

  lemma StepAttempts(delays: Delays, s: State, input: Input)
    requires Inv(delays, s)
    ensures AttemptsOk(Step(delays, s, input))
  {
    if input.Settle? && input.id in s.attempts {
      assert (s.attempts - {input.id}).Keys == {};
      assert s.attempts - {input.id} == map[];
    }
    if input.Fire? && s.timer.Some? && !s.inFlight {
      assert s.nextID in s.attempts[s.nextID := Attempt(s.timer.value.gen, false)];
    }
    if (input.Cancel? || input.SetAvailable?) && s.controller.Some? {
      assert s.controller.value in Abort(s).attempts;
    }
  }

  /** The timer the outcome of the current request's attempt sets, if any, waits what is due by then. */
  lemma ConcludedTimer(delays: Delays, s: State, aborted: bool, result: Outcome)
    requires s.pending && s.timer.None? && s.controller.None?
    requires !aborted && result.Retry? ==> RetriesSinceRequest(s.log) == s.attemptIndex + 1
    requires Due(delays, s.log)
          == if !aborted && RetriesSinceRequest(s.log) < |delays| then delays[RetriesSinceRequest(s.log)] else 0
    ensures TimerOk(delays, Concluded(delays, s, aborted, result))
  {
  }

  lemma SettleTimer(delays: Delays, s: State, id: nat, result: Outcome)
    requires Inv(delays, s) && id in s.attempts
    ensures TimerOk(delays, Settling(delays, s, id, result))
  {
    var a := s.attempts[id];
    var live := a.gen == s.generation && s.pending;
    var e := Settled(live, result, a.aborted);
    DueAppend(delays, s.log, e);
    if live {
      LogAppend(s.log, e);
      ConcludedTimer(delays, Logged(s, id, result), a.aborted, result);
    } else {
      assert Settling(delays, s, id, result).timer == s.timer;
    }
  }

  lemma StepTimer(delays: Delays, s: State, input: Input)
    requires Inv(delays, s)
    ensures TimerOk(delays, Step(delays, s, input))
  {
    match input
    case Request => DueAppend(delays, s.log, Requested);
    case SetAvailable(_) => DueAppend(delays, s.log, Resumed);
    case Settle(id, result) =>
      if id in s.attempts {
        SettleTimer(delays, s, id, result);
      }
    case _ =>
  }

  lemma RequestCount(delays: Delays, s: State)
    requires CountOk(delays, s)
    ensures CountOk(delays, Step(delays, s, Request))
  {
    LogAppend(s.log, Requested);
    EarnedAppend(delays, s.log, Requested);
  }

  /** What the outcome of the current request's attempt does to the count. */
  lemma ConcludedCount(delays: Delays, s: State, aborted: bool, result: Outcome)
    requires s.pending && s.attemptIndex < |delays| && ExhaustionsEarned(delays, s.log)
    requires RetriesSinceRequest(s.log) == s.attemptIndex + if result.Retry? && !aborted then 1 else 0
    ensures CountOk(delays, Concluded(delays, s, aborted, result))
  {
    EarnedAppend(delays, s.log, Exhausted);
  }

  lemma SettleCount(delays: Delays, s: State, id: nat, result: Outcome)
    requires CountOk(delays, s) && id in s.attempts
    ensures CountOk(delays, Settling(delays, s, id, result))
  {
    var a := s.attempts[id];
    var live := a.gen == s.generation && s.pending;
    var e := Settled(live, result, a.aborted);
    LogAppend(s.log, e);
    EarnedAppend(delays, s.log, e);
    if live {
      ConcludedCount(delays, Logged(s, id, result), a.aborted, result);
    }
  }

  lemma StepCount(delays: Delays, s: State, input: Input)
    requires Inv(delays, s)
    ensures CountOk(delays, Step(delays, s, input))
  {
    match input
    case Request => RequestCount(delays, s);
    case SetAvailable(_) =>
      LogAppend(s.log, Resumed);
      EarnedAppend(delays, s.log, Resumed);
    case Settle(id, result) =>
      if id in s.attempts {
        SettleCount(delays, s, id, result);
      }
    case _ =>
  }

  lemma {:induction false} EveryRun(delays: Delays, inputs: seq<Input>)
    ensures Inv(delays, Run(delays, inputs))
  {
    if inputs != [] {
      var before := Run(delays, inputs[..|inputs| - 1]);
      EveryRun(delays, inputs[..|inputs| - 1]);
      StepAttempts(delays, before, inputs[|inputs| - 1]);
      StepTimer(delays, before, inputs[|inputs| - 1]);
      StepCount(delays, before, inputs[|inputs| - 1]);
    }
  }

  lemma {:induction false} EarnedAt(delays: Delays, log: seq<Event>, k: nat)
    requires ExhaustionsEarned(delays, log) && k < |log| && log[k].Exhausted?
    ensures RetriesSinceRequest(log[..k]) == |delays|
  {
    if k < |log| - 1 {
      assert log[..|log| - 1][..k] == log[..k];
      EarnedAt(delays, log[..|log| - 1], k);
    }
  }

  /**
   * In every run at most one attempt is outstanding, no timer is set while unavailable or while
   * the current request has an attempt, a set timer waits exactly what is due, an attempt of an
   * earlier generation is aborted, and exhaustion is reported only after exactly as many counted
   * retry outcomes of one request as there are delays.
   */
  lemma BoundedAndExclusive(delays: Delays, inputs: seq<Input>)
    ensures var s := Run(delays, inputs);
            && (forall i, j :: i in s.attempts && j in s.attempts ==> i == j)
            && (s.timer.Some? ==> s.available && s.pending && s.controller.None?
                                  && s.timer.value == Timer(s.generation, Due(delays, s.log)))
            && (forall i :: i in s.attempts && s.attempts[i].gen != s.generation ==> s.attempts[i].aborted)
            && (forall k :: 0 <= k < |s.log| && s.log[k].Exhausted? ==> RetriesSinceRequest(s.log[..k]) == |delays|)
  {
    EveryRun(delays, inputs);
    var s := Run(delays, inputs);
    forall k | 0 <= k < |s.log| && s.log[k].Exhausted?
      ensures RetriesSinceRequest(s.log[..k]) == |delays|
    {
      EarnedAt(delays, s.log, k);
    }
  }

  // ---------------------------------------------------------------- what each input leads to

  /** The request is over: nothing is pending, nothing will fire, and whatever is outstanding is disowned. */
  predicate Over(s: State, s': State) {
    !s'.pending && s'.timer.None? && s'.controller.None? && s'.generation > s.generation
  }

  /** The request goes on with an attempt after `delay`. */
  predicate GoesOn(s: State, s': State, delay: nat) {
    && s'.pending && s'.generation == s.generation && s'.controller.None?
    && s'.timer == if s.available then Some(Timer(s.generation, delay)) else None
  }

  /**
   * What the outcome of the current request's attempt leads to: an aborted attempt is repeated at
   * once and not counted, success and stop end the request, the k-th counted retry waits the k-th
   * delay, and the one that finds no delay left ends the request and is reported.
   */
  lemma OutcomeMeans(delays: Delays, s: State, id: nat, result: Outcome)
    requires Inv(delays, s) && id in s.attempts && s.attempts[id].gen == s.generation
    ensures var a, s' := s.attempts[id], Step(delays, s, Settle(id, result));
            var k, settled := RetriesSinceRequest(s.log) + 1, s.log + [Settled(true, result, a.aborted)];
            && s'.attempts == map[] && !s'.inFlight && s'.available == s.available
            && (if a.aborted then GoesOn(s, s', 0) && s'.log == settled && RetriesSinceRequest(settled) == k - 1
                else if result != Retry then Over(s, s') && s'.log == settled
                else if k < |delays| then
                  s.available && GoesOn(s, s', delays[k]) && s'.log == settled && RetriesSinceRequest(settled) == k
                else k == |delays| && Over(s, s') && s'.log == settled + [Exhausted])
  {
    var a := s.attempts[id];
    assert s.attempts - {id} == map[];
    LogAppend(s.log, Settled(true, result, a.aborted));
  }

  /** A request of an idle coordinator waits the first delay; another one changes nothing. */
  lemma RequestMeans(delays: Delays, s: State)
    requires Inv(delays, s)
    ensures var s' := Step(delays, s, Request);
            if s.pending then s' == s else
              && s'.pending && s'.generation == s.generation && s'.attempts == s.attempts
              && RetriesSinceRequest(s'.log) == 0
              && s'.timer == if s.available then Some(Timer(s.generation, delays[0])) else None
  {
    LogAppend(s.log, Requested);
  }

  /** A timer that fires starts one fresh attempt for the current request, unless one is still outstanding. */
  lemma FireMeans(delays: Delays, s: State)
    requires Inv(delays, s) && s.timer.Some?
    ensures var s' := Step(delays, s, Fire);
            && s'.timer.None? && s'.pending && s'.generation == s.generation
            && (if s.attempts == map[]
                then s'.attempts == map[s.nextID := Attempt(s.generation, false)] && s'.controller == Some(s.nextID)
                else s'.attempts == s.attempts && s'.controller.None?)
  {
    if s.attempts == map[] {
      assert map[][s.nextID := Attempt(s.generation, false)] == map[s.nextID := Attempt(s.generation, false)];
    }
  }

  /** Cancelling ends the request and aborts whatever attempt is outstanding. */
  lemma CancelMeans(delays: Delays, s: State)
    requires Inv(delays, s)
    ensures var s' := Step(delays, s, Cancel);
            && Over(s, s') && s'.available == s.available && s'.attempts.Keys == s.attempts.Keys
            && (forall i :: i in s'.attempts ==> s'.attempts[i] == Attempt(s.attempts[i].gen, true))
  {
  }

  /**
   * Becoming unavailable takes the timer and aborts the attempt but keeps the request; becoming
   * available again resumes a request without an attempt at once.
   */
  lemma AvailabilityMeans(delays: Delays, s: State, available: bool)
    requires Inv(delays, s)
    ensures var s' := Step(delays, s, SetAvailable(available));
            && s'.available == available && s'.pending == s.pending && s'.generation == s.generation
            && (available == s.available ==> s' == s)
            && (s.available && !available ==>
                  && s'.timer.None? && s'.attempts.Keys == s.attempts.Keys
                  && forall i :: i in s'.attempts ==> s'.attempts[i] == Attempt(s.attempts[i].gen, true))
            && (!s.available && available ==>
                  && s'.attempts == s.attempts
                  && s'.timer == if s.pending && s.attempts == map[] then Some(Timer(s.generation, 0)) else None)
  {
  }

  /** The outcome of an attempt from a superseded generation leaves the current sequence alone. */
  lemma StaleOutcomeIsInert(delays: Delays, s: State, id: nat, result: Outcome)
    requires id in s.attempts && s.attempts[id].gen != s.generation
    ensures var s' := Step(delays, s, Settle(id, result));
            && s'.pending == s.pending && s'.attemptIndex == s.attemptIndex && s'.timer == s.timer
            && s'.generation == s.generation && s'.available == s.available
  {
  }

  // ---------------------------------------------------------------- progress

  /** A pending request in an available coordinator has something that will move it on. */
  predicate Driven(s: State) {
    s.pending && s.available ==> s.timer.Some? || s.controller.Some?
  }

  /** An attempt of an earlier generation is still outstanding. */
  predicate Orphaned(s: State) {
    s.inFlight && s.controller.None?
  }

  /** The inputs that lose a pending request: they find the attempt slot taken by an orphan. */
  predicate Drops(s: State, input: Input) {
    && s.pending && Orphaned(s)
    && ((input.Fire? && s.timer.Some?) || (input.SetAvailable? && input.available && !s.available))
  }

  /** A step leaves a driven coordinator driven if and only if it is not one of the dropping inputs. */
  lemma StepDriven(delays: Delays, s: State, input: Input)
    requires Inv(delays, s) && Driven(s)
    ensures Driven(Step(delays, s, input)) <==> !Drops(s, input)
  {
    if input.Settle? && input.id in s.attempts {
      assert s.attempts - {input.id} == map[];
    }
  }

  /** A run stays driven throughout if and only if it contains no dropping input. */
  lemma {:induction false} DrivenExactly(delays: Delays, inputs: seq<Input>)
    ensures (forall k :: 0 <= k <= |inputs| ==> Driven(Run(delays, inputs[..k])))
       <==> (forall k :: 0 <= k < |inputs| ==> !Drops(Run(delays, inputs[..k]), inputs[k]))
  {
    if forall k :: 0 <= k <= |inputs| ==> Driven(Run(delays, inputs[..k])) {
      forall k | 0 <= k < |inputs|
        ensures !Drops(Run(delays, inputs[..k]), inputs[k])
      {
        assert Driven(Run(delays, inputs[..k])) && Driven(Run(delays, inputs[..k + 1]));
        StepAt(delays, inputs, k);
      }
    }
    if forall k :: 0 <= k < |inputs| ==> !Drops(Run(delays, inputs[..k]), inputs[k]) {
      forall k | 0 <= k <= |inputs|
        ensures Driven(Run(delays, inputs[..k]))
      {
        DrivenUpTo(delays, inputs, k);
      }
    }
  }

  lemma StepAt(delays: Delays, inputs: seq<Input>, k: nat)
    requires k < |inputs|
    ensures Run(delays, inputs[..k + 1]) == Step(delays, Run(delays, inputs[..k]), inputs[k])
    ensures Driven(Run(delays, inputs[..k])) ==>
              (Driven(Run(delays, inputs[..k + 1])) <==> !Drops(Run(delays, inputs[..k]), inputs[k]))
  {
    assert inputs[..k + 1][..k] == inputs[..k];
    EveryRun(delays, inputs[..k]);
    if Driven(Run(delays, inputs[..k])) {
      StepDriven(delays, Run(delays, inputs[..k]), inputs[k]);
    }
  }

  lemma {:induction false} DrivenUpTo(delays: Delays, inputs: seq<Input>, k: nat)
    requires k <= |inputs|
    requires forall j :: 0 <= j < k ==> !Drops(Run(delays, inputs[..j]), inputs[j])
    ensures Driven(Run(delays, inputs[..k]))
  {
    if k > 0 {
      DrivenUpTo(delays, inputs, k - 1);
      StepAt(delays, inputs, k - 1);
    }
  }

  /** No request is accepted while an attempt that was cancelled in flight is still outstanding. */
  predicate NeverReused(delays: Delays, inputs: seq<Input>) {
    forall k :: 0 <= k < |inputs| && inputs[k].Request? ==> !Orphaned(Run(delays, inputs[..k]))
  }

  lemma {:induction false} OrphanIsIdle(delays: Delays, inputs: seq<Input>, k: nat)
    requires k <= |inputs| && NeverReused(delays, inputs)
    ensures Orphaned(Run(delays, inputs[..k])) ==> !Run(delays, inputs[..k]).pending
  {
    if k > 0 {
      OrphanIsIdle(delays, inputs, k - 1);
      StepAt(delays, inputs, k - 1);
      EveryRun(delays, inputs[..k - 1]);
      OrphanStep(delays, Run(delays, inputs[..k - 1]), inputs[k - 1]);
    }
  }

  lemma OrphanStep(delays: Delays, s: State, input: Input)
    requires Inv(delays, s) && (Orphaned(s) ==> !s.pending && !input.Request?)
    ensures Orphaned(Step(delays, s, input)) ==> !Step(delays, s, input).pending
  {
  }

  /**
   * A coordinator that is not asked again while a cancelled attempt is still outstanding never
   * loses a request: pending and available always means a timer or a live attempt.
   */
  lemma RequestsAreNotLost(delays: Delays, inputs: seq<Input>)
    requires NeverReused(delays, inputs)
    ensures Driven(Run(delays, inputs))
  {
    forall k | 0 <= k < |inputs|
      ensures !Drops(Run(delays, inputs[..k]), inputs[k])
    {
      OrphanIsIdle(delays, inputs, k);
    }
    DrivenUpTo(delays, inputs, |inputs|);
    assert inputs[..|inputs|] == inputs;
  }

  /** Asking again after cancelling mid-attempt can lose the new request for good. */
  lemma ReuseCanLose(delays: Delays)
    ensures var s := Step(delays, Step(delays, Step(delays, Step(delays, Step(delays, Step(delays, INITIAL,
                       Request), Fire), Cancel), Request), Fire), Settle(0, Retry));
            s.pending && s.available && s.timer.None? && !s.inFlight
  {
    var s1 := Step(delays, INITIAL, Request);
    var s2 := Step(delays, s1, Fire);
    var s3 := Step(delays, s2, Cancel);
    var s4 := Step(delays, s3, Request);
    var s5 := Step(delays, s4, Fire);
    assert s5.attempts[0].gen == 0 && s5.generation == 1;
  }

  // ---------------------------------------------------------------- the coordinator object

  class BoundedRecoveryCoordinator {
    const delays: Delays
    var available: bool
    var pending_: bool
    var inFlight: bool
    var attemptIndex: nat
    var timer: Option<Timer>
    var controller: Option<nat>
    var generation: nat
    var attempts: map<nat, Attempt>
    var nextID: nat
    ghost var log: seq<Event>

    ghost function View(): State
      reads this
    {
      State(available, pending_, inFlight, attemptIndex, timer, controller, generation, attempts, nextID, log)
    }

    constructor (delays: Delays)
      ensures this.delays == delays && View() == INITIAL
    {
      this.delays := delays;
      available, pending_, inFlight, attemptIndex, timer, controller := true, false, false, 0, None, None;
      generation, attempts, nextID, log := 0, map[], 0, [];
    }

    method ScheduleTimer(delay: nat)
      modifies this`timer
      ensures View() == Schedule(old(View()), delay)
    {
      if !pending_ || !available || timer.Some? {
        return;
      }
      timer := Some(Timer(generation, delay));
    }

    method AbortController()
      modifies this`attempts
      ensures View() == Abort(old(View()))
    {
      if controller.Some? && controller.value in attempts {
        attempts := attempts[controller.value := attempts[controller.value].(aborted := true)];
      }
    }

    method AskRecovery()
      modifies this
      ensures View() == Step(delays, old(View()), Request)
    {
      if pending_ {
        return;
      }
      pending_ := true;
      attemptIndex := 0;
      log := log + [Requested];
      ScheduleTimer(delays[0]);
    }

    method ChangeAvailability(nowAvailable: bool)
      modifies this
      ensures View() == Step(delays, old(View()), SetAvailable(nowAvailable))
    {
      if available == nowAvailable {
        return;
      }
      available := nowAvailable;
      if !nowAvailable {
        timer := None;
        AbortController();
        return;
      }
      if pending_ && !inFlight {
        log := log + [Resumed];
        ScheduleTimer(0);
      }
    }

    method CancelAll()
      modifies this
      ensures View() == Step(delays, old(View()), Cancel)
    {
      generation := generation + 1;
      AbortController();
      controller := None;
      pending_ := false;
      attemptIndex := 0;
      timer := None;
    }

    /** The timer callback up to the point where the attempt is awaited. */
    method TimerFired() returns (started: Option<nat>)
      modifies this
      ensures View() == Step(delays, old(View()), Fire)
      ensures started.Some? ==> attempts == old(attempts)[started.value := Attempt(generation, false)]
      ensures started.None? ==> attempts == old(attempts)
    {
      started := None;
      if timer.None? {
        return;
      }
      var gen := timer.value.gen;
      timer := None;
      if gen != generation || !pending_ || !available || inFlight {
        return;
      }
      inFlight := true;
      controller := Some(nextID);
      attempts := attempts[nextID := Attempt(gen, false)];
      started := Some(nextID);
      nextID := nextID + 1;
    }

    /** What follows the awaited attempt. */
    method AttemptSettled(id: nat, result: Outcome) returns (exhausted: bool)
      modifies this
      ensures View() == Step(delays, old(View()), Settle(id, result))
      ensures exhausted <==> |log| == |old(log)| + 2
    {
      exhausted := false;
      if id !in attempts {
        return;
      }
      var a := attempts[id];
      var live := a.gen == generation && pending_;
      inFlight := false;
      attempts := attempts - {id};
      if controller == Some(id) {
        controller := None;
      }
      log := log + [Settled(live, result, a.aborted)];
      if live {
        exhausted := Conclude(a.aborted, result);
      }
    }

    method Conclude(aborted: bool, result: Outcome) returns (exhausted: bool)
      modifies this
      ensures View() == Concluded(delays, old(View()), aborted, result)
      ensures log == if exhausted then old(log) + [Exhausted] else old(log)
    {
      exhausted := false;
      if aborted {
        ScheduleTimer(0);
        return;
      }
      if result != Retry {
        CancelAll();
        return;
      }
      attemptIndex := attemptIndex + 1;
      if attemptIndex >= |delays| {
        CancelAll();
        log := log + [Exhausted];
        return true;
      }
      ScheduleTimer(delays[attemptIndex]);
    }
  }
}
