/** What the lifecycle protocol guarantees, stated over arbitrary runs. */
module LifecycleTheorems {
  import opened Common
  import opened Lifecycle
  import opened LifecycleRuns
  import opened LifecycleInvariant

  // ---------------------------------------------------------------- phases

  lemma StartupForward(cfg: Config, b: Board, pc: Pc, ok: bool)
    requires Startup(pc) && b.sh.phase.Starting?
    ensures b.sh.phase.Rank() <= MoveStartup(cfg, b, pc, ok).0.sh.phase.Rank()
  {
  }

  lemma TeardownForward(cfg: Config, b: Board, pc: Pc, ok: bool)
    requires Teardown(pc) && b.sh.phase.Stopping?
    ensures b.sh.phase.Rank() <= MoveTeardown(cfg, b, pc, ok).0.sh.phase.Rank()
  {
    var after := MoveTeardown(cfg, b, pc, ok).0.sh.phase;
    assert after == if pc.Sealing? then Stopped else Stopping;
  }

  lemma CallerForward(cfg: Config, b: Board, t: nat, pc: Pc, ok: bool)
    requires !Startup(pc) && !Teardown(pc)
    ensures b.sh.phase.Rank() <= MoveCaller(cfg, b, t, pc, ok).0.sh.phase.Rank()
  {
  }

  lemma MoveForward(cfg: Config, b: Board, t: nat, pc: Pc, ok: bool)
    requires ThreadOk(cfg, b, t, pc)
    ensures b.sh.phase.Rank() <= Move(cfg, b, t, pc, ok).0.sh.phase.Rank()
  {
    if Startup(pc) {
      StartupForward(cfg, b, pc, ok);
    } else if Teardown(pc) {
      TeardownForward(cfg, b, pc, ok);
    } else {
      CallerForward(cfg, b, t, pc, ok);
    }
  }

  lemma StepForward(cfg: Config, s: State, a: Action)
    requires Inv(cfg, s)
    ensures s.board.sh.phase.Rank() <= Next(cfg, s, a).board.sh.phase.Rank()
  {
    if a.Advance? && a.t in s.threads && !Orders(s.board, s.threads[a.t]) {
      MoveForward(cfg, s.board, a.t, s.threads[a.t], a.ok);
    }
  }

  /** Idle, starting, running, stopping, stopped: the phase never moves back. */
  lemma {:induction false} PhaseNeverMovesBack(cfg: Config, actions: seq<Action>, k: nat)
    requires k <= |actions|
    ensures Run(cfg, actions[..k]).board.sh.phase.Rank() <= Run(cfg, actions).board.sh.phase.Rank()
  {
    if k == |actions| {
      assert actions[..k] == actions;
    } else {
      var before := actions[..|actions| - 1];
      assert actions[..k] == before[..k];
      PhaseNeverMovesBack(cfg, before, k);
      EveryRun(cfg, before);
      StepForward(cfg, Run(cfg, before), actions[|actions| - 1]);
    }
  }

  // ---------------------------------------------------------------- order of effects

  /** What an orderly log looks like, event by event. */
  predicate OrderlyLog(log: seq<Event>) {
    forall i, j :: 0 <= i < j < |log| ==> OrderlyPair(log[i], log[j])
  }

  predicate OrderlyPair(earlier: Event, later: Event) {
    && (earlier.StopRan? ==> later.StopRan? || later.CleanupRan?)
    && (earlier.CleanupRan? ==> later.CleanupRan?)
    && (earlier.StartBegan? && later.StartBegan? ==> earlier.component < later.component)
    && (earlier.StopRequested? ==> !later.BecameRunning?)
  }

  /** What an event leaves in the tally. */
  predicate Shows(y: Tally, e: Event) {
    && (e.StopRan? ==> y.level >= 1) && (e.CleanupRan? ==> y.level == 2)
    && (e.StopRequested? ==> y.asked) && (e.StartBegan? ==> e.component < y.begun)
  }

  /** The tally shows each event of the log. */
  lemma {:induction false} ReadEvery(log: seq<Event>, i: nat)
    requires i < |log| && Read(log).orderly
    ensures Shows(Read(log), log[i])
  {
    var n := |log| - 1;
    var y, e := Read(log[..n]), log[n];
    ReadBounds(log[..n]);
    CountGrows(y, e);
    if i < n {
      ReadEvery(log[..n], i);
    }
  }

  lemma CountGrows(y: Tally, e: Event)
    requires Count(y, e).orderly && y.level <= 2
    ensures var z := Count(y, e);
            y.orderly && y.level <= z.level <= 2 && y.begun <= z.begun && (y.asked ==> z.asked) && Shows(z, e)
  {
  }

  lemma {:induction false} OrderlyMeans(log: seq<Event>)
    requires Read(log).orderly
    ensures OrderlyLog(log)
  {
    if log != [] {
      var n := |log| - 1;
      OrderlyMeans(log[..n]);
      forall i, j | 0 <= i < j < |log|
        ensures OrderlyPair(log[i], log[j])
      {
        if j < n {
          assert OrderlyPair(log[..n][i], log[..n][j]);
        } else {
          ReadEvery(log[..n], i);
        }
      }
    }
  }

  lemma LateGrows(y: Tally, e: Event)
    requires Count(y, e).orderly
    ensures y.orderly && y.late <= Count(y, e).late
    ensures e.StartBegan? && y.asked ==> Count(y, e).late == y.late + 1
  {
  }

  /** Each Start that begins after a stop request is counted as late. */
  lemma {:induction false} LateOnce(log: seq<Event>, i: nat, j: nat)
    requires i < j < |log| && log[i].StopRequested? && log[j].StartBegan? && Read(log).orderly
    ensures Read(log).late >= 1
  {
    var n := |log| - 1;
    LateGrows(Read(log[..n]), log[n]);
    if j < n {
      LateOnce(log[..n], i, j);
    } else {
      ReadEvery(log[..n], i);
    }
  }

  lemma {:induction false} LateMeans(log: seq<Event>, i: nat, j: nat, k: nat)
    requires i < j < k < |log| && log[i].StopRequested? && log[j].StartBegan? && log[k].StartBegan?
    requires Read(log).orderly
    ensures Read(log).late >= 2
  {
    var n := |log| - 1;
    LateGrows(Read(log[..n]), log[n]);
    if k < n {
      LateMeans(log[..n], i, j, k);
    } else {
      ReadEvery(log[..n], i);
      LateOnce(log[..n], i, j);
    }
  }

  /**
   * In every run: components start in slot order and none twice; nothing starts after a stop and
   * no stop follows a cleanup; the process never runs after a stop request, and at most one
   * component Start begins after one.
   */
  lemma EffectsAreOrdered(cfg: Config, actions: seq<Action>)
    ensures var log := Run(cfg, actions).board.log;
            && OrderlyLog(log)
            && !exists i, j, k :: 0 <= i < j < k < |log|
                 && log[i].StopRequested? && log[j].StartBegan? && log[k].StartBegan?
  {
    EveryRun(cfg, actions);
    EveryTally(cfg, actions);
    var log := Run(cfg, actions).board.log;
    OrderlyMeans(log);
    forall i, j, k | 0 <= i < j < k < |log| && log[i].StopRequested? && log[j].StartBegan? && log[k].StartBegan?
      ensures false
    {
      LateMeans(log, i, j, k);
    }
  }

  // ---------------------------------------------------------------- each component at most once

  predicate Rising(xs: seq<nat>) {
    forall i, j :: 0 <= i < j < |xs| ==> xs[i] < xs[j]
  }

  predicate Falling(xs: seq<nat>) {
    forall i, j :: 0 <= i < j < |xs| ==> xs[j] < xs[i]
  }

  lemma StartupRises(cfg: Config, b: Board, t: nat, pc: Pc, ok: bool)
    requires Startup(pc) && StartupOk(cfg, b, t, pc) && Rising(b.tally.successes)
    ensures Rising(MoveStartup(cfg, b, pc, ok).0.tally.successes)
  {
    if pc.Calling? {
      SuccessesAreBelow(cfg, b, pc.i);
    } else {
      StartupAddsNone(cfg, b, pc, ok);
    }
  }

  lemma SuccessesAreBelow(cfg: Config, b: Board, i: nat)
    requires Flags(cfg, b, i) && Recorded(b)
    ensures forall k :: 0 <= k < |b.tally.successes| ==> b.tally.successes[k] < i
  {
    IndexesExact(b.sh.started);
  }

  lemma StartupAddsNone(cfg: Config, b: Board, pc: Pc, ok: bool)
    requires Startup(pc) && !pc.Calling?
    ensures MoveStartup(cfg, b, pc, ok).0.tally.successes == b.tally.successes
  {
  }

  lemma TeardownAddsNone(cfg: Config, b: Board, pc: Pc, ok: bool)
    requires Teardown(pc)
    ensures MoveTeardown(cfg, b, pc, ok).0.tally.successes == b.tally.successes
  {
  }

  lemma CallerAddsNone(cfg: Config, b: Board, t: nat, pc: Pc, ok: bool)
    requires !Startup(pc) && !Teardown(pc)
    ensures MoveCaller(cfg, b, t, pc, ok).0.tally.successes == b.tally.successes
  {
  }

  lemma StepRises(cfg: Config, s: State, a: Action)
    requires Inv(cfg, s) && Rising(s.board.tally.successes)
    ensures Rising(Next(cfg, s, a).board.tally.successes)
  {
    if a.Advance? && a.t in s.threads && !Orders(s.board, s.threads[a.t]) {
      var pc := s.threads[a.t];
      assert ThreadOk(cfg, s.board, a.t, pc);
      if Startup(pc) {
        StartupRises(cfg, s.board, a.t, pc, a.ok);
      } else if Teardown(pc) {
        TeardownAddsNone(cfg, s.board, pc, a.ok);
      } else {
        CallerAddsNone(cfg, s.board, a.t, pc, a.ok);
      }
    }
  }

  lemma {:induction false} SuccessesRise(cfg: Config, actions: seq<Action>)
    ensures Rising(Run(cfg, actions).board.tally.successes)
  {
    if actions != [] {
      var before := actions[..|actions| - 1];
      SuccessesRise(cfg, before);
      EveryRun(cfg, before);
      StepRises(cfg, Run(cfg, before), actions[|actions| - 1]);
    }
  }

  lemma StopsFall(stops: seq<nat>, successes: seq<nat>)
    requires Rising(successes) && stops <= Reversed(successes)
    ensures Falling(stops)
  {
    forall i, j | 0 <= i < j < |stops|
      ensures stops[j] < stops[i]
    {
      ReversedAt(successes, i);
      ReversedAt(successes, j);
    }
  }

  /** Successful Starts in slot order, Stops in the reverse of it: no component appears twice among either. */
  predicate OnceEach(log: seq<Event>) {
    forall i, j :: 0 <= i < j < |log| ==> OncePair(log[i], log[j])
  }

  predicate OncePair(earlier: Event, later: Event) {
    && (earlier.StartSucceeded? && later.StartSucceeded? ==> earlier.component < later.component)
    && (earlier.StopRan? && later.StopRan? ==> later.component < earlier.component)
  }

  lemma {:induction false} ReadHolds(log: seq<Event>, i: nat)
    requires i < |log|
    ensures log[i].StartSucceeded? ==> log[i].component in Read(log).successes
    ensures log[i].StopRan? ==> log[i].component in Read(log).stops
  {
    if i < |log| - 1 {
      ReadHolds(log[..|log| - 1], i);
      CountHolds(Read(log[..|log| - 1]), log[|log| - 1]);
    }
  }

  lemma CountHolds(y: Tally, e: Event)
    ensures forall c :: c in y.successes ==> c in Count(y, e).successes
    ensures forall c :: c in y.stops ==> c in Count(y, e).stops
  {
  }

  lemma LastOnce(y: Tally, earlier: Event, later: Event)
    requires Rising(Count(y, later).successes) && Falling(Count(y, later).stops)
    requires earlier.StartSucceeded? ==> earlier.component in y.successes
    requires earlier.StopRan? ==> earlier.component in y.stops
    ensures OncePair(earlier, later)
  {
    var z := Count(y, later);
    if earlier.StartSucceeded? && later.StartSucceeded? {
      var i :| 0 <= i < |y.successes| && y.successes[i] == earlier.component;
      assert z.successes[i] < z.successes[|y.successes|];
    }
    if earlier.StopRan? && later.StopRan? {
      var i :| 0 <= i < |y.stops| && y.stops[i] == earlier.component;
      assert z.stops[|y.stops|] < z.stops[i];
    }
  }

  lemma CountRetains(y: Tally, e: Event)
    requires Rising(Count(y, e).successes) && Falling(Count(y, e).stops)
    ensures Rising(y.successes) && Falling(y.stops)
  {
    var z := Count(y, e);
    assert y.successes == z.successes[..|y.successes|] && y.stops == z.stops[..|y.stops|];
  }

  lemma {:induction false} OnceMeans(log: seq<Event>)
    requires Rising(Read(log).successes) && Falling(Read(log).stops)
    ensures OnceEach(log)
  {
    if log != [] {
      var n := |log| - 1;
      CountRetains(Read(log[..n]), log[n]);
      OnceMeans(log[..n]);
      forall i, j | 0 <= i < j < |log|
        ensures OncePair(log[i], log[j])
      {
        if j < n {
          assert OncePair(log[..n][i], log[..n][j]);
        } else {
          ReadHolds(log[..n], i);
          LastOnce(Read(log[..n]), log[i], log[n]);
        }
      }
    }
  }

  /**
   * At every moment the Stops that ran are the first ones of the successful Starts read
   * backwards. No component is among the successful Starts twice, so none is stopped twice.
   */
  lemma StopsReverseStarts(cfg: Config, actions: seq<Action>)
    ensures var log := Run(cfg, actions).board.log; var y := Read(log);
            && y.stops <= Reversed(y.successes)
            && Rising(y.successes) && Falling(y.stops)
            && OnceEach(log)
  {
    EveryTally(cfg, actions);
    StopsArePrefix(cfg, actions);
    SuccessesRise(cfg, actions);
    var log := Run(cfg, actions).board.log;
    StopsFall(Read(log).stops, Read(log).successes);
    OnceMeans(log);
  }

  lemma StopsArePrefix(cfg: Config, actions: seq<Action>)
    ensures var y := Run(cfg, actions).board.tally; y.stops <= Reversed(y.successes)
  {
    EveryRun(cfg, actions);
    var s := Run(cfg, actions);
    if s.board.sh.phase.Stopping? {
      StopsWhileStopping(cfg, s);
    } else {
      StopsOtherwise(cfg, s.board);
    }
  }

  lemma StopsOtherwise(cfg: Config, b: Board)
    requires BoardOk(cfg, b) && !b.sh.phase.Stopping?
    ensures b.tally.stops <= Reversed(b.tally.successes)
  {
  }

  lemma StopsWhileStopping(cfg: Config, s: State)
    requires Inv(cfg, s) && s.board.sh.phase.Stopping?
    ensures s.board.tally.stops <= Reversed(s.board.tally.successes)
  {
    var c := |s.board.channels| - 1;
    var t := s.board.holder[c];
    var pc := s.threads[t];
    assert Holds(pc) && pc.c == c && ThreadOk(cfg, s.board, t, pc);
    StopsSoFar(cfg, s.board, t, pc);
  }

  lemma StopsSoFar(cfg: Config, b: Board, t: nat, pc: Pc)
    requires ThreadOk(cfg, b, t, pc) && Holds(pc) && b.sh.phase.Stopping? && b.sh.done == Some(pc.c)
    ensures b.tally.stops <= Reversed(b.tally.successes)
  {
  }

  /** Once stopped, every started component has been stopped and every cleanup has run exactly once. */
  lemma StoppedMeansTornDown(cfg: Config, actions: seq<Action>)
    requires Run(cfg, actions).board.sh.phase.Stopped?
    ensures var b := Run(cfg, actions).board; var y := Read(b.log);
            && y.stops == Reversed(y.successes)
            && y.cleanups == Reversed(Indexes(cfg.cleanups))
            && b.sh.cleanupDone && b.sh.shutdownErr == y.faults && b.sh.startErr != []
  {
    EveryRun(cfg, actions);
    EveryTally(cfg, actions);
    CountdownIsReversedIndexes(cfg.cleanups, 0);
    assert cfg.cleanups[..0] == [];
    assert Countdown(cfg.cleanups, 0) + [] == Countdown(cfg.cleanups, 0);
  }
}
