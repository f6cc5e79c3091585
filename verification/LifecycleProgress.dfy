/**
 * Why no caller of the lifecycle waits for ever: every open done channel is closed once its
 * goroutine has moved often enough, and a closed channel lets its waiters return, whatever any
 * other goroutine does in between.
 */
module LifecycleProgress {
  import opened Common
  import opened LifecycleRuns
  import opened LifecycleInvariant

  /** How many moves a goroutine is at most away from closing the channel it holds. */
  function Distance(cfg: Config, pc: Pc): nat
    requires Holds(pc)
  {
    var n, m := |cfg.components|, |cfg.cleanups|;
    match pc
    case Closing(_, _) => 1
    case Sealing(_, _, _, _) => 2
    case Tallying(_, _, _) => 3
    case Cleaning(_, _, _, k, _) => 4 + k
    case Draining(_, _, todo, _) => 5 + m + |todo|
    case Unwinding(_, _) => 6 + m + n
    case Head(_, i) => 7 + m + n + 5 * Ahead(n, i)
    case Gate(_, i, _) => 6 + m + n + 5 * Ahead(n, i)
    case Calling(_, i) => 5 + m + n + 5 * Ahead(n, i)
    case Settled(_, i) => 4 + m + n + 5 * Ahead(n, i)
    case PostStart(_, i, _) => 3 + m + n + 5 * Ahead(n, i)
  }

  function Ahead(n: nat, i: nat): nat {
    if i < n then n - i else 0
  }

  /** A move either closes the held channel or brings its goroutine nearer to closing it. */
  predicate Approaches(cfg: Config, b: Board, pc: Pc, r: (Board, Pc))
    requires Holds(pc)
  {
    && pc.c < |b.channels| == |r.0.channels| && r.0.holder == b.holder
    && (r.0.channels[pc.c] == 0 ==> Holds(r.1) && r.1.c == pc.c && Distance(cfg, r.1) < Distance(cfg, pc))
  }

  lemma MoveApproaches(cfg: Config, b: Board, t: nat, pc: Pc, ok: bool)
    requires ThreadOk(cfg, b, t, pc) && Holds(pc)
    ensures Approaches(cfg, b, pc, Move(cfg, b, t, pc, ok))
  {
    if Startup(pc) {
      StartupApproaches(cfg, b, t, pc, ok);
    } else if Teardown(pc) {
      TeardownApproaches(cfg, b, t, pc, ok);
    }
  }

  lemma StartupApproaches(cfg: Config, b: Board, t: nat, pc: Pc, ok: bool)
    requires Startup(pc) && StartingUp(b, t, pc.c) && |b.sh.started| == |cfg.components|
    requires pc.Gate? || pc.Calling? || pc.PostStart? ==> pc.i < |cfg.components|
    ensures Approaches(cfg, b, pc, MoveStartup(cfg, b, pc, ok))
  {
  }

  lemma TeardownApproaches(cfg: Config, b: Board, t: nat, pc: Pc, ok: bool)
    requires Teardown(pc) && TeardownOk(cfg, b, t, pc)
    ensures Approaches(cfg, b, pc, MoveTeardown(cfg, b, pc, ok))
  {
  }

  lemma ClosedStays(cfg: Config, s: State, c: nat, a: Action)
    requires Inv(cfg, s) && c < |s.board.channels| && s.board.channels[c] == 1
    ensures var b' := Next(cfg, s, a).board;
            c < |b'.channels| == |b'.holder| && b'.channels[c] == 1 && b'.holder[c] == s.board.holder[c]
  {
    if a.Advance? && a.t in s.threads && !Orders(s.board, s.threads[a.t]) {
      assert ThreadOk(cfg, s.board, a.t, s.threads[a.t]);
      MoveRetains(cfg, s.board, a.t, s.threads[a.t], a.ok);
    }
  }

  // ---------------------------------------------------------------- any interleaving

  /** How many of the steps are moves of goroutine `t`. */
  function Moves(steps: seq<Action>, t: nat): nat {
    if steps == [] then 0
    else (if steps[0].Advance? && steps[0].t == t then 1 else 0) + Moves(steps[1..], t)
  }

  predicate MovedBy(a: Action, t: nat) {
    a.Advance? && a.t == t
  }

  lemma RunMore(cfg: Config, actions: seq<Action>, a: Action, more: seq<Action>)
    ensures Run(cfg, actions + [a]) == Next(cfg, Run(cfg, actions), a)
    ensures (actions + [a]) + more == actions + ([a] + more)
  {
    assert (actions + [a])[..|actions|] == actions;
  }

  /** A goroutine stands still while others move. */
  lemma OthersStay(cfg: Config, s: State, a: Action, t: nat)
    requires t in s.threads && !MovedBy(a, t)
    ensures var s' := Next(cfg, s, a); t in s'.threads && s'.threads[t] == s.threads[t]
  {
  }

  /** An open channel stays open and keeps its goroutine while others move. */
  lemma OpenStays(cfg: Config, s: State, c: nat, a: Action)
    requires Inv(cfg, s) && c < |s.board.channels| && s.board.channels[c] == 0
    requires !MovedBy(a, s.board.holder[c])
    ensures var b' := Next(cfg, s, a).board;
            c < |b'.channels| == |b'.holder| && b'.channels[c] == 0 && b'.holder[c] == s.board.holder[c]
  {
    if a.Advance? && a.t in s.threads && !Orders(s.board, s.threads[a.t]) {
      assert ThreadOk(cfg, s.board, a.t, s.threads[a.t]);
      MoveRetains(cfg, s.board, a.t, s.threads[a.t], a.ok);
      HeldIsOwned(cfg, s.board, a.t, s.threads[a.t]);
    }
  }

  lemma HeldIsOwned(cfg: Config, b: Board, t: nat, pc: Pc)
    requires ThreadOk(cfg, b, t, pc)
    ensures Holds(pc) ==> Owns(b, t, pc.c)
  {
  }

  /** How many more moves of its goroutine channel `c` needs at most; none once it is closed. */
  function Needs(cfg: Config, s: State, c: nat): nat {
    if c < |s.board.channels| && c < |s.board.holder| && s.board.channels[c] == 0 &&
       s.board.holder[c] in s.threads && Holds(s.threads[s.board.holder[c]])
    then Distance(cfg, s.threads[s.board.holder[c]]) else 0
  }

  lemma HolderHolds(cfg: Config, s: State, c: nat)
    requires Inv(cfg, s) && c < |s.board.channels| && s.board.channels[c] == 0
    ensures var t := s.board.holder[c];
            && t in s.threads && ThreadOk(cfg, s.board, t, s.threads[t])
            && Holds(s.threads[t]) && s.threads[t].c == c && Needs(cfg, s, c) == Distance(cfg, s.threads[t]) > 0
  {
  }

  /** Channel `c` is no further from its close after the step, and nearer if its goroutine moved. */
  predicate Nearer(cfg: Config, s: State, c: nat, a: Action, s': State)
    requires c < |s.board.channels| && c < |s.board.holder|
  {
    && c < |s'.board.channels| && c < |s'.board.holder| && s'.board.holder[c] == s.board.holder[c]
    && (if MovedBy(a, s.board.holder[c]) && Needs(cfg, s, c) > 0 then Needs(cfg, s', c) < Needs(cfg, s, c)
        else Needs(cfg, s', c) <= Needs(cfg, s, c))
  }

  lemma HolderApproaches(cfg: Config, s: State, c: nat, a: Action)
    requires Inv(cfg, s) && c < |s.board.channels| && s.board.channels[c] == 0 && MovedBy(a, s.board.holder[c])
    ensures Nearer(cfg, s, c, a, Next(cfg, s, a))
  {
    var t := s.board.holder[c];
    HolderHolds(cfg, s, c);
    MoveApproaches(cfg, s.board, t, s.threads[t], a.ok);
  }

  lemma OtherLeaves(cfg: Config, s: State, c: nat, a: Action)
    requires Inv(cfg, s) && c < |s.board.channels| && s.board.channels[c] == 0 && !MovedBy(a, s.board.holder[c])
    ensures Nearer(cfg, s, c, a, Next(cfg, s, a))
  {
    HolderHolds(cfg, s, c);
    OpenStays(cfg, s, c, a);
    OthersStay(cfg, s, a, s.board.holder[c]);
  }

  lemma ClosedLeaves(cfg: Config, s: State, c: nat, a: Action)
    requires Inv(cfg, s) && c < |s.board.channels| && s.board.channels[c] == 1
    ensures Nearer(cfg, s, c, a, Next(cfg, s, a))
  {
    ClosedStays(cfg, s, c, a);
  }

  lemma StepApproaches(cfg: Config, s: State, c: nat, a: Action)
    requires Inv(cfg, s) && c < |s.board.channels|
    ensures Nearer(cfg, s, c, a, Next(cfg, s, a))
  {
    if s.board.channels[c] == 1 {
      ClosedLeaves(cfg, s, c, a);
    } else if MovedBy(a, s.board.holder[c]) {
      HolderApproaches(cfg, s, c, a);
    } else {
      OtherLeaves(cfg, s, c, a);
    }
  }

  /**
   * After any run, in any continuation in which the goroutine responsible for a channel moves
   * often enough, with anything interleaved and whatever the components answer, the channel ends
   * up closed exactly once.
   */
  lemma {:induction false} ChannelCloses(cfg: Config, actions: seq<Action>, more: seq<Action>, c: nat)
    requires c < |Run(cfg, actions).board.channels| && c < |Run(cfg, actions).board.holder|
    requires Moves(more, Run(cfg, actions).board.holder[c]) >= Needs(cfg, Run(cfg, actions), c)
    ensures var b := Run(cfg, actions + more).board; c < |b.channels| && b.channels[c] == 1
    decreases |more|
  {
    EveryRun(cfg, actions);
    var s := Run(cfg, actions);
    if more == [] {
      assert actions + more == actions;
      OpenNeeds(cfg, s, c);
    } else {
      RunMore(cfg, actions, more[0], more[1..]);
      assert [more[0]] + more[1..] == more;
      StepApproaches(cfg, s, c, more[0]);
      ChannelCloses(cfg, actions + [more[0]], more[1..], c);
    }
  }

  lemma OpenNeeds(cfg: Config, s: State, c: nat)
    requires Inv(cfg, s) && c < |s.board.channels|
    ensures s.board.channels[c] == if Needs(cfg, s, c) > 0 then 0 else 1
  {
    if s.board.channels[c] == 0 {
      HolderHolds(cfg, s, c);
    }
  }

  // ---------------------------------------------------------------- the waiters

  predicate Waits(pc: Pc) {
    pc.StartWaiting? || pc.ShutCancelling? || pc.ShutWaiting?
  }

  /** The call has returned, with an answer or with its own context's error. */
  predicate Returned(pc: Pc) {
    pc.StartReturned? || pc.ShutReturned? || pc.Expired?
  }

  /** A Start or Shutdown call that waits for channel `c`, reads its answer or has returned. */
  predicate Leaving(pc: Pc, c: nat, start: bool) {
    || pc.Expired?
    || (if start then pc == StartWaiting(Some(c)) || pc.StartReading? || pc.StartReturned?
        else pc == ShutCancelling(Some(c)) || pc == ShutWaiting(Some(c)) || pc.ShutReading? || pc.ShutReturned?)
  }

  /** How many moves a caller makes until it returns, once its channel is closed. */
  function Remaining(pc: Pc): nat {
    if pc.ShutCancelling? then 3
    else if pc.StartWaiting? || pc.ShutWaiting? then 2
    else if pc.StartReading? || pc.ShutReading? then 1
    else 0
  }

  /** The caller's own context never ends first: every receive of it is decided by the channel. */
  predicate Patient(steps: seq<Action>, t: nat) {
    forall i :: 0 <= i < |steps| && MovedBy(steps[i], t) ==> steps[i].ok
  }

  predicate OnItsWay(s: State, w: nat, c: nat, start: bool) {
    w in s.threads && Leaving(s.threads[w], c, start)
  }

  /** A step leaves a caller on its way out; a move of it while the channel is closed brings it nearer. */
  lemma LeavingStep(cfg: Config, s: State, w: nat, c: nat, start: bool, a: Action)
    requires OnItsWay(s, w, c, start)
    ensures var s' := Next(cfg, s, a);
            && OnItsWay(s', w, c, start) && Remaining(s'.threads[w]) <= Remaining(s.threads[w])
            && (MovedBy(a, w) && Closed(s.board, Some(c)) && Remaining(s.threads[w]) > 0 ==>
                  Remaining(s'.threads[w]) < Remaining(s.threads[w]))
            && (!MovedBy(a, w) || a.ok ==> (s'.threads[w].Expired? <==> s.threads[w].Expired?))
  {
    if !MovedBy(a, w) {
      OthersStay(cfg, s, a, w);
    }
  }

  lemma {:induction false} StaysOnItsWay(
    cfg: Config, actions: seq<Action>, more: seq<Action>, w: nat, c: nat, start: bool)
    requires OnItsWay(Run(cfg, actions), w, c, start)
    ensures var s, s' := Run(cfg, actions), Run(cfg, actions + more);
            && OnItsWay(s', w, c, start) && Remaining(s'.threads[w]) <= Remaining(s.threads[w])
            && (Patient(more, w) && !s.threads[w].Expired? ==> !s'.threads[w].Expired?)
    decreases |more|
  {
    if more == [] {
      assert actions + more == actions;
    } else {
      RunMore(cfg, actions, more[0], more[1..]);
      assert [more[0]] + more[1..] == more;
      LeavingStep(cfg, Run(cfg, actions), w, c, start, more[0]);
      assert Patient(more, w) ==> Patient(more[1..], w);
      StaysOnItsWay(cfg, actions + [more[0]], more[1..], w, c, start);
    }
  }

  /** Once its channel is closed a caller returns after at most three moves of its own, whatever others do. */
  lemma {:induction false} ClosedReleases(
    cfg: Config, actions: seq<Action>, more: seq<Action>, w: nat, c: nat, start: bool)
    requires OnItsWay(Run(cfg, actions), w, c, start) && Closed(Run(cfg, actions).board, Some(c))
    requires Moves(more, w) >= Remaining(Run(cfg, actions).threads[w])
    ensures var s' := Run(cfg, actions + more); w in s'.threads && Remaining(s'.threads[w]) == 0
    decreases |more|
  {
    if more == [] {
      assert actions + more == actions;
    } else {
      var s := Run(cfg, actions);
      EveryRun(cfg, actions);
      RunMore(cfg, actions, more[0], more[1..]);
      assert [more[0]] + more[1..] == more;
      LeavingStep(cfg, s, w, c, start, more[0]);
      ClosedStays(cfg, s, c, more[0]);
      ClosedReleases(cfg, actions + [more[0]], more[1..], w, c, start);
    }
  }

  /** In every run a waiting caller has a channel, and an open channel has a goroutine on its way to closing it. */
  lemma EveryWaiterHasAHolder(cfg: Config, actions: seq<Action>, w: nat)
    requires w in Run(cfg, actions).threads && Waits(Run(cfg, actions).threads[w])
    ensures var s := Run(cfg, actions); var pc := s.threads[w];
            && pc.channel.Some? && pc.channel.value < |s.board.channels| == |s.board.holder|
            && var c := pc.channel.value; var t := s.board.holder[c];
               && s.board.channels[c] <= 1
               && (s.board.channels[c] == 0 ==> t in s.threads && Holds(s.threads[t]) && s.threads[t].c == c)
  {
    EveryRun(cfg, actions);
    var s := Run(cfg, actions);
    assert ThreadOk(cfg, s.board, w, s.threads[w]);
  }

  /**
   * No waiter is forgotten. In any continuation in which the goroutine responsible for its channel
   * moves often enough, and the caller itself three times after that, with anything interleaved,
   * a waiting caller returns; and it returns the answer unless its own context ended first.
   */
  lemma EveryWaiterIsReleased(
    cfg: Config, actions: seq<Action>, first: seq<Action>, second: seq<Action>, w: nat, c: nat)
    requires w in Run(cfg, actions).threads && Waits(Run(cfg, actions).threads[w])
    requires Run(cfg, actions).threads[w].channel == Some(c) && c < |Run(cfg, actions).board.holder|
    requires Moves(first, Run(cfg, actions).board.holder[c]) >= Needs(cfg, Run(cfg, actions), c)
    requires Moves(second, w) >= 3
    ensures var pc, s' := Run(cfg, actions).threads[w], Run(cfg, actions + first + second);
            && w in s'.threads && Returned(s'.threads[w])
            && (Patient(first, w) && Patient(second, w) ==>
                  if pc.StartWaiting? then s'.threads[w].StartReturned? else s'.threads[w].ShutReturned?)
  {
    EveryWaiterHasAHolder(cfg, actions, w);
    var start := Run(cfg, actions).threads[w].StartWaiting?;
    ChannelCloses(cfg, actions, first, c);
    StaysOnItsWay(cfg, actions, first, w, c, start);
    StaysOnItsWay(cfg, actions + first, second, w, c, start);
    ClosedReleases(cfg, actions + first, second, w, c, start);
  }
}
