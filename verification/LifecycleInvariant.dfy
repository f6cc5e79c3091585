/** What every reachable state of the lifecycle protocol satisfies, and why each step keeps it. */
module LifecycleInvariant {
  import opened Common
  import opened Lifecycle
  import opened LifecycleRuns

  /** Whether the goroutine at `pc` still has channel `c` to close. */
  predicate Holds(pc: Pc) {
    Startup(pc) || Teardown(pc) || pc.Closing?
  }

  predicate AllPresent(cfg: Config, indexes: seq<nat>) {
    indexes != [] ==>
      AllPresent(cfg, indexes[..|indexes| - 1]) && Present(cfg.components, indexes[|indexes| - 1])
  }

  /** The startup owner before slot `i`: the flags record exactly the successes logged so far. */
  predicate Flags(cfg: Config, b: Board, i: nat) {
    && |b.sh.started| == |cfg.components|
    && i <= |cfg.components|
    && (forall j :: i <= j < |b.sh.started| ==> !b.sh.started[j])
    && AllPresent(cfg, Indexes(b.sh.started))
  }

  /** The flags raised so far are exactly the successes logged, in slot order. */
  predicate Recorded(b: Board) {
    Indexes(b.sh.started) == b.tally.successes
  }

  /** All successes stopped in reverse order, then every cleanup run once, last first. */
  predicate TornDown(cfg: Config, b: Board) {
    && b.once && b.sh.cleanupDone
    && b.tally.stops == Reversed(b.tally.successes)
    && b.tally.cleanups == Countdown(cfg.cleanups, 0)
  }

  /** Goroutine `t` was given channel `c` and has not closed it yet. */
  predicate Owns(b: Board, t: nat, c: nat) {
    c < |b.channels| && c < |b.holder| && b.channels[c] == 0 && b.holder[c] == t
  }

  predicate StartingUp(b: Board, t: nat, c: nat) {
    Owns(b, t, c) && b.sh.phase.Starting? && b.sh.done == Some(c)
  }

  predicate TearingDown(b: Board, t: nat, c: nat, cause: Cause) {
    Owns(b, t, c) && b.sh.phase.Stopping? && b.sh.done == Some(c) && (cause.Ordered? ==> b.sh.stopReq)
  }

  /** What holds of goroutine `t` while it is at `pc`. */
  predicate ThreadOk(cfg: Config, b: Board, t: nat, pc: Pc) {
    if Startup(pc) then StartupOk(cfg, b, t, pc)
    else if Teardown(pc) then TeardownOk(cfg, b, t, pc)
    else CallerOk(b, t, pc)
  }

  predicate StartupOk(cfg: Config, b: Board, t: nat, pc: Pc)
    requires Startup(pc)
  {
    && StartingUp(b, t, pc.c)
    && match pc
       case Head(_, i) =>
         Flags(cfg, b, i) && Recorded(b) && b.tally.begun <= i && b.tally.late == 0
       case Gate(_, i, stop) =>
         && Flags(cfg, b, i) && Recorded(b) && b.tally.begun <= i && b.tally.late == 0
         && i < |cfg.components| && (stop ==> b.sh.stopReq)
       case Calling(_, i) =>
         Flags(cfg, b, i) && Recorded(b) && b.tally.begun <= i + 1 && Present(cfg.components, i)
       case Settled(_, i) =>
         && Flags(cfg, b, i) && b.tally.begun <= i + 1 && Present(cfg.components, i)
         && b.tally.successes == Indexes(b.sh.started) + [i]
       case PostStart(_, i, stop) =>
         && Flags(cfg, b, i + 1) && Recorded(b) && b.tally.begun <= i + 1
         && (if stop then b.sh.stopReq else b.tally.late == 0)
       case Unwinding(_, cause) =>
         Flags(cfg, b, |cfg.components|) && Recorded(b) && !cause.Ordered?
  }

  predicate TeardownOk(cfg: Config, b: Board, t: nat, pc: Pc)
    requires Teardown(pc)
  {
    && TearingDown(b, t, pc.c, pc.cause)
    && match pc
       case Draining(_, _, todo, stopErr) =>
         && b.tally.level <= 1 && !b.once && AllPresent(cfg, todo)
         && b.tally.stops + Reversed(todo) == Reversed(b.tally.successes)
         && b.tally.faults == stopErr
       case Cleaning(_, _, stopErr, k, errs) =>
         && b.once && k <= |cfg.cleanups|
         && b.tally.stops == Reversed(b.tally.successes)
         && b.tally.cleanups == Countdown(cfg.cleanups, k) && b.tally.faults == stopErr + errs
       case Tallying(_, cause, stopErr) =>
         TornDown(cfg, b) && b.tally.faults == stopErr + b.sh.cleanupErr && !cause.Ordered?
       case Sealing(_, cause, stopErr, cleaned) =>
         && TornDown(cfg, b) && b.tally.faults == stopErr + b.sh.cleanupErr
         && (!cause.Ordered? ==> cleaned == b.sh.cleanupErr)
  }

  predicate CallerOk(b: Board, t: nat, pc: Pc)
    requires !Startup(pc) && !Teardown(pc)
  {
    match pc
    case StartEntry => true
    case StartWaiting(ch) => ch.Some? && ch.value < |b.channels|
    case StartReading => b.tally.ran || b.sh.phase.Stopped?
    case StartReturned(err) => err == [] ==> b.tally.ran
    case Closing(c, ran) =>
      && Owns(b, t, c)
      && (if ran then b.tally.ran && (b.sh.done == Some(c) ==> b.sh.phase.Running?) else b.sh.phase.Stopped?)
    case ShutEntry => true
    case ShutCancelling(ch) => AwaitsStop(b, ch)
    case ShutWaiting(ch) => AwaitsStop(b, ch)
    case ShutReading => b.sh.phase.Stopped?
    case ShutReturned(err) => b.sh.phase.Stopped? && err == b.tally.faults
    case Expired => true
    case Finished => true
  }

  /** A shutdown caller waits for the channel that only the end of the teardown closes. */
  predicate AwaitsStop(b: Board, ch: Option<nat>) {
    && ch.Some? && ch == b.sh.done && ch.value < |b.channels|
    && !b.sh.phase.Idle? && !b.sh.phase.Running? && (b.sh.phase.Starting? ==> b.sh.stopReq)
  }

  /** What the shared state satisfies by itself. */
  predicate BoardOk(cfg: Config, b: Board) {
    && ChannelsOk(b) && PhaseOk(cfg, b) && LogOk(b)
  }

  predicate ChannelsOk(b: Board) {
    && |b.channels| == |b.holder|
    && (forall c :: 0 <= c < |b.channels| ==>
          b.channels[c] <= 1 && (b.channels[c] == 1 ==> b.tally.ran || b.sh.phase.Stopped?))
    && (b.sh.phase.Idle? <==> b.channels == [])
    && (!b.sh.phase.Idle? ==> b.sh.done == Some(|b.channels| - 1))
    && (b.sh.phase.Starting? || b.sh.phase.Stopping? ==> b.channels[|b.channels| - 1] == 0)
  }

  predicate PhaseOk(cfg: Config, b: Board) {
    match b.sh.phase
    case Idle => b.sh == FRESH && b.tally == ZERO && !b.once
    case Starting => Early(b) && !b.tally.ran
    case Running =>
      && Early(b) && b.tally.ran && !b.sh.stopReq
      && Flags(cfg, b, |cfg.components|) && Indexes(b.sh.started) == b.tally.successes
    case Stopping => true
    case Stopped => TornDown(cfg, b) && b.sh.shutdownErr == b.tally.faults && b.sh.startErr != []
  }

  predicate Early(b: Board) {
    b.tally.level == 0 && !b.once && b.sh.startErr == []
  }

  predicate LogOk(b: Board) {
    && Bounded(b.tally) && b.tally.orderly && b.tally.late <= 1
    && (b.sh.stopReq <==> b.tally.asked)
  }

  /** Every open channel has its goroutine, still on the way to closing it. */
  predicate Covered(s: State) {
    forall c :: 0 <= c < |s.board.channels| && c < |s.board.holder| && s.board.channels[c] == 0 ==>
      && s.board.holder[c] in s.threads
      && var pc := s.threads[s.board.holder[c]]; Holds(pc) && pc.c == c
  }

  predicate Inv(cfg: Config, s: State) {
    && BoardOk(cfg, s.board) && Covered(s)
    && forall t :: t in s.threads ==> ThreadOk(cfg, s.board, t, s.threads[t])
  }


  // ---------------------------------------------------------------- the moving goroutine

  predicate Kept(cfg: Config, t: nat, r: (Board, Pc)) {
    BoardOk(cfg, r.0) && ThreadOk(cfg, r.0, t, r.1)
  }

  lemma OwnMove(cfg: Config, b: Board, t: nat, pc: Pc, ok: bool)
    requires BoardOk(cfg, b) && ThreadOk(cfg, b, t, pc) && !Orders(b, pc)
    ensures Kept(cfg, t, Move(cfg, b, t, pc, ok))
  {
    if Startup(pc) {
      StartupMoves(cfg, b, t, pc, ok);
    } else if Teardown(pc) {
      TeardownMoves(cfg, b, t, pc, ok);
    } else {
      CallerMoves(cfg, b, t, pc, ok);
    }
  }

  lemma StartupMoves(cfg: Config, b: Board, t: nat, pc: Pc, ok: bool)
    requires BoardOk(cfg, b) && ThreadOk(cfg, b, t, pc) && Startup(pc)
    ensures Kept(cfg, t, Move(cfg, b, t, pc, ok))
  {
    match pc
    case Head(_, _) => HeadMoves(cfg, b, t, pc, ok);
    case Gate(_, _, _) => GateMoves(cfg, b, t, pc, ok);
    case Calling(_, _) => CallingMoves(cfg, b, t, pc, ok);
    case Settled(_, _) => SettledMoves(cfg, b, t, pc, ok);
    case PostStart(_, _, _) => PostStartMoves(cfg, b, t, pc, ok);
    case Unwinding(_, _) => UnwindingMoves(cfg, b, t, pc, ok);
  }

  lemma TeardownMoves(cfg: Config, b: Board, t: nat, pc: Pc, ok: bool)
    requires BoardOk(cfg, b) && ThreadOk(cfg, b, t, pc) && Teardown(pc)
    ensures Kept(cfg, t, Move(cfg, b, t, pc, ok))
  {
    match pc
    case Draining(_, _, todo, _) =>
      if todo != [] {
        StopMoves(cfg, b, t, pc, ok);
      } else {
        DrainedMoves(cfg, b, t, pc, ok);
      }
    case Cleaning(_, _, _, k, _) =>
      if k > 0 {
        CleanupMoves(cfg, b, t, pc, ok);
      } else {
        CleanedMoves(cfg, b, t, pc, ok);
      }
    case Tallying(_, _, _) =>
    case Sealing(_, _, _, _) => SealingMoves(cfg, b, t, pc, ok);
  }

  lemma CallerMoves(cfg: Config, b: Board, t: nat, pc: Pc, ok: bool)
    requires BoardOk(cfg, b) && ThreadOk(cfg, b, t, pc) && !Startup(pc) && !Teardown(pc) && !Orders(b, pc)
    ensures Kept(cfg, t, Move(cfg, b, t, pc, ok))
  {
    if pc.StartEntry? {
      StartEntryMoves(cfg, b, t, ok);
    } else if pc.ShutEntry? {
      ShutEntryMoves(cfg, b, t, ok);
    } else if pc.Closing? {
      ClosingMoves(cfg, b, t, pc, ok);
    } else {
      WaiterMoves(cfg, b, t, pc, ok);
    }
  }

  lemma HeadMoves(cfg: Config, b: Board, t: nat, pc: Pc, ok: bool)
    requires BoardOk(cfg, b) && pc.Head? && StartupOk(cfg, b, t, pc)
    ensures Kept(cfg, t, MoveStartup(cfg, b, pc, ok))
  {
  }

  lemma GateMoves(cfg: Config, b: Board, t: nat, pc: Pc, ok: bool)
    requires BoardOk(cfg, b) && pc.Gate? && StartupOk(cfg, b, t, pc)
    ensures Kept(cfg, t, MoveStartup(cfg, b, pc, ok))
  {
  }

  lemma CallingMoves(cfg: Config, b: Board, t: nat, pc: Pc, ok: bool)
    requires BoardOk(cfg, b) && pc.Calling? && StartupOk(cfg, b, t, pc)
    ensures Kept(cfg, t, MoveStartup(cfg, b, pc, ok))
  {
  }

  lemma SettledMoves(cfg: Config, b: Board, t: nat, pc: Pc, ok: bool)
    requires BoardOk(cfg, b) && pc.Settled? && StartupOk(cfg, b, t, pc)
    ensures Kept(cfg, t, MoveStartup(cfg, b, pc, ok))
  {
    IndexesRaise(b.sh.started, pc.i);
    assert (Indexes(b.sh.started) + [pc.i])[..|Indexes(b.sh.started)|] == Indexes(b.sh.started);
  }

  lemma PostStartMoves(cfg: Config, b: Board, t: nat, pc: Pc, ok: bool)
    requires BoardOk(cfg, b) && pc.PostStart? && StartupOk(cfg, b, t, pc)
    ensures Kept(cfg, t, MoveStartup(cfg, b, pc, ok))
  {
  }

  lemma UnwindingMoves(cfg: Config, b: Board, t: nat, pc: Pc, ok: bool)
    requires BoardOk(cfg, b) && pc.Unwinding? && StartupOk(cfg, b, t, pc)
    ensures Kept(cfg, t, MoveStartup(cfg, b, pc, ok))
  {
  }

  lemma StopMoves(cfg: Config, b: Board, t: nat, pc: Pc, ok: bool)
    requires BoardOk(cfg, b) && pc.Draining? && TeardownOk(cfg, b, t, pc) && pc.todo != []
    ensures Kept(cfg, t, MoveTeardown(cfg, b, pc, ok))
  {
    StopKeepsBoard(cfg, b, t, pc, ok);
    StopKeepsThread(cfg, b, t, pc, ok);
  }

  lemma StopKeepsBoard(cfg: Config, b: Board, t: nat, pc: Pc, ok: bool)
    requires BoardOk(cfg, b) && pc.Draining? && TeardownOk(cfg, b, t, pc) && pc.todo != []
    ensures BoardOk(cfg, MoveTeardown(cfg, b, pc, ok).0)
  {
    TeardownEventKeepsBoard(cfg, b, StopRan(pc.todo[|pc.todo| - 1], ok));
  }

  lemma StopKeepsThread(cfg: Config, b: Board, t: nat, pc: Pc, ok: bool)
    requires BoardOk(cfg, b) && pc.Draining? && TeardownOk(cfg, b, t, pc) && pc.todo != []
    ensures var (b', pc') := MoveTeardown(cfg, b, pc, ok); ThreadOk(cfg, b', t, pc')
  {
    ReversedShift(b.tally.stops, pc.todo);
  }

  lemma DrainedMoves(cfg: Config, b: Board, t: nat, pc: Pc, ok: bool)
    requires BoardOk(cfg, b) && pc.Draining? && TeardownOk(cfg, b, t, pc) && pc.todo == []
    ensures Kept(cfg, t, MoveTeardown(cfg, b, pc, ok))
  {
    assert b.tally.stops + Reversed(pc.todo) == b.tally.stops;
    assert pc.stopErr + [] == pc.stopErr;
  }

  lemma CleanupMoves(cfg: Config, b: Board, t: nat, pc: Pc, ok: bool)
    requires BoardOk(cfg, b) && pc.Cleaning? && TeardownOk(cfg, b, t, pc) && pc.k > 0
    ensures Kept(cfg, t, MoveTeardown(cfg, b, pc, ok))
  {
    if Present(cfg.cleanups, pc.k - 1) {
      CleanupKeepsBoard(cfg, b, t, pc, ok);
      CleanupKeepsThread(cfg, b, t, pc, ok);
    }
  }

  lemma CleanupKeepsBoard(cfg: Config, b: Board, t: nat, pc: Pc, ok: bool)
    requires BoardOk(cfg, b) && pc.Cleaning? && TeardownOk(cfg, b, t, pc) && pc.k > 0
    requires Present(cfg.cleanups, pc.k - 1)
    ensures BoardOk(cfg, MoveTeardown(cfg, b, pc, ok).0)
  {
    TeardownEventKeepsBoard(cfg, b, CleanupRan(pc.k - 1, ok));
  }

  /** Stops and cleanups are logged in order while the process is stopping. */
  lemma TeardownEventKeepsBoard(cfg: Config, b: Board, e: Event)
    requires BoardOk(cfg, b) && b.sh.phase.Stopping?
    requires e.CleanupRan? || (e.StopRan? && b.tally.level <= 1)
    ensures BoardOk(cfg, Log(b, e))
  {
  }

  lemma CleanupKeepsThread(cfg: Config, b: Board, t: nat, pc: Pc, ok: bool)
    requires pc.Cleaning? && TeardownOk(cfg, b, t, pc) && pc.k > 0 && Present(cfg.cleanups, pc.k - 1)
    ensures var (b', pc') := MoveTeardown(cfg, b, pc, ok); pc'.Cleaning? && TeardownOk(cfg, b', t, pc')
  {
    assert Countdown(cfg.cleanups, pc.k - 1) == Countdown(cfg.cleanups, pc.k) + [pc.k - 1];
    var b' := Log(b, CleanupRan(pc.k - 1, ok));
    assert b'.tally.cleanups == Countdown(cfg.cleanups, pc.k - 1);
    if !ok {
      Associate(pc.stopErr, pc.errs, CleanupFault(pc.k - 1));
    }
  }

  lemma CleanedMoves(cfg: Config, b: Board, t: nat, pc: Pc, ok: bool)
    requires BoardOk(cfg, b) && pc.Cleaning? && TeardownOk(cfg, b, t, pc) && pc.k == 0
    ensures Kept(cfg, t, MoveTeardown(cfg, b, pc, ok))
  {
  }

  lemma SealingMoves(cfg: Config, b: Board, t: nat, pc: Pc, ok: bool)
    requires BoardOk(cfg, b) && pc.Sealing? && TeardownOk(cfg, b, t, pc)
    ensures Kept(cfg, t, MoveTeardown(cfg, b, pc, ok))
  {
  }

  lemma StartEntryMoves(cfg: Config, b: Board, t: nat, ok: bool)
    requires BoardOk(cfg, b)
    ensures Kept(cfg, t, MoveCaller(cfg, b, t, StartEntry, ok))
  {
    if b.sh.phase.Idle? {
      NoIndexes(Lowered(|cfg.components|));
    }
  }

  lemma ShutEntryMoves(cfg: Config, b: Board, t: nat, ok: bool)
    requires BoardOk(cfg, b) && !Orders(b, ShutEntry)
    ensures Kept(cfg, t, MoveCaller(cfg, b, t, ShutEntry, ok))
  {
    if b.sh.phase.Starting? {
      StopRequestKeepsBoard(cfg, b);
    }
  }

  lemma StopRequestKeepsBoard(cfg: Config, b: Board)
    requires BoardOk(cfg, b) && b.sh.phase.Starting?
    ensures BoardOk(cfg, Log(b.(sh := b.sh.(stopReq := true)), StopRequested))
  {
  }

  lemma ClosingMoves(cfg: Config, b: Board, t: nat, pc: Pc, ok: bool)
    requires BoardOk(cfg, b) && ThreadOk(cfg, b, t, pc) && pc.Closing?
    ensures Kept(cfg, t, MoveCaller(cfg, b, t, pc, ok))
  {
  }

  lemma WaiterMoves(cfg: Config, b: Board, t: nat, pc: Pc, ok: bool)
    requires BoardOk(cfg, b) && !Holds(pc) && CallerOk(b, t, pc) && !pc.StartEntry? && !pc.ShutEntry?
    ensures Kept(cfg, t, MoveCaller(cfg, b, t, pc, ok))
  {
    if pc.ShutCancelling? {
      CancellingMoves(cfg, b, t, pc, ok);
    } else if pc.ShutWaiting? {
      ShutWaitingMoves(cfg, b, t, pc, ok);
    }
  }

  lemma CancellingMoves(cfg: Config, b: Board, t: nat, pc: Pc, ok: bool)
    requires pc.ShutCancelling? && BoardOk(cfg, b) && AwaitsStop(b, pc.channel)
    ensures Kept(cfg, t, MoveCaller(cfg, b, t, pc, ok))
  {
    assert Flags(cfg, b, |cfg.components|) ==> Flags(cfg, b.(canceled := true), |cfg.components|);
  }

  /** The channel a Shutdown waits for is closed only once the process has stopped. */
  lemma ShutWaitingMoves(cfg: Config, b: Board, t: nat, pc: Pc, ok: bool)
    requires pc.ShutWaiting? && BoardOk(cfg, b) && AwaitsStop(b, pc.channel)
    ensures Kept(cfg, t, MoveCaller(cfg, b, t, pc, ok))
  {
    assert Closed(b, pc.channel) ==> b.sh.phase.Stopped?;
  }

  // ---------------------------------------------------------------- the other goroutines

  predicate Works(pc: Pc) {
    Startup(pc) || Teardown(pc)
  }

  /** At most one goroutine starts or tears down the process. */
  lemma OneWorker(cfg: Config, b: Board, t: nat, pc: Pc, u: nat, q: Pc)
    requires ThreadOk(cfg, b, t, pc) && ThreadOk(cfg, b, u, q) && Works(pc) && Works(q)
    ensures t == u
  {
    WorkerHasLastChannel(cfg, b, t, pc);
    WorkerHasLastChannel(cfg, b, u, q);
  }

  lemma WorkerHasLastChannel(cfg: Config, b: Board, t: nat, pc: Pc)
    requires ThreadOk(cfg, b, t, pc) && Works(pc)
    ensures b.sh.done.Some? && b.sh.done.value < |b.holder| && b.holder[b.sh.done.value] == t
  {
  }

  lemma OthersKeep(cfg: Config, b: Board, t: nat, pc: Pc, ok: bool, u: nat, q: Pc)
    requires BoardOk(cfg, b) && ThreadOk(cfg, b, t, pc) && ThreadOk(cfg, b, u, q) && u != t && !Orders(b, pc)
    ensures ThreadOk(cfg, Move(cfg, b, t, pc, ok).0, u, q)
  {
    if Works(pc) {
      if Works(q) {
        OneWorker(cfg, b, t, pc, u, q);
      } else if Startup(pc) {
        StartupLeaves(cfg, b, t, pc, ok, u, q);
      } else {
        TeardownLeaves(cfg, b, t, pc, ok, u, q);
      }
    } else if pc.Closing? {
      ClosingLeaves(cfg, b, t, pc, ok, u, q);
    } else if pc.StartEntry? {
      StartEntryLeaves(cfg, b, t, ok, u, q);
    } else if pc.ShutEntry? {
      ShutEntryLeaves(cfg, b, t, ok, u, q);
    }
  }

  lemma StartupLeaves(cfg: Config, b: Board, t: nat, pc: Pc, ok: bool, u: nat, q: Pc)
    requires BoardOk(cfg, b) && ThreadOk(cfg, b, t, pc) && ThreadOk(cfg, b, u, q) && u != t
    requires Startup(pc) && !Works(q)
    ensures ThreadOk(cfg, MoveStartup(cfg, b, pc, ok).0, u, q)
  {
  }

  lemma TeardownLeaves(cfg: Config, b: Board, t: nat, pc: Pc, ok: bool, u: nat, q: Pc)
    requires BoardOk(cfg, b) && ThreadOk(cfg, b, t, pc) && ThreadOk(cfg, b, u, q) && u != t
    requires Teardown(pc) && !Works(q)
    ensures ThreadOk(cfg, MoveTeardown(cfg, b, pc, ok).0, u, q)
  {
    if pc.Sealing? {
      SealingLeaves(cfg, b, t, pc, ok, u, q);
    } else if pc.Draining? && pc.todo != [] {
      EventLeaves(cfg, b, StopRan(pc.todo[|pc.todo| - 1], ok), u, q);
    } else if pc.Cleaning? && pc.k > 0 {
      EventLeaves(cfg, b, CleanupRan(pc.k - 1, ok), u, q);
    }
  }

  lemma EventLeaves(cfg: Config, b: Board, e: Event, u: nat, q: Pc)
    requires ThreadOk(cfg, b, u, q) && !Works(q) && b.sh.phase.Stopping?
    ensures ThreadOk(cfg, Log(b, e), u, q)
  {
  }

  lemma SealingLeaves(cfg: Config, b: Board, t: nat, pc: Pc, ok: bool, u: nat, q: Pc)
    requires ThreadOk(cfg, b, t, pc) && ThreadOk(cfg, b, u, q) && u != t && pc.Sealing? && !Works(q)
    ensures ThreadOk(cfg, MoveTeardown(cfg, b, pc, ok).0, u, q)
  {
  }

  lemma ClosingLeaves(cfg: Config, b: Board, t: nat, pc: Pc, ok: bool, u: nat, q: Pc)
    requires BoardOk(cfg, b) && ThreadOk(cfg, b, t, pc) && ThreadOk(cfg, b, u, q) && u != t && pc.Closing?
    ensures ThreadOk(cfg, Move(cfg, b, t, pc, ok).0, u, q)
  {
  }

  lemma StartEntryLeaves(cfg: Config, b: Board, t: nat, ok: bool, u: nat, q: Pc)
    requires BoardOk(cfg, b) && ThreadOk(cfg, b, u, q)
    ensures ThreadOk(cfg, Move(cfg, b, t, StartEntry, ok).0, u, q)
  {
  }

  lemma ShutEntryLeaves(cfg: Config, b: Board, t: nat, ok: bool, u: nat, q: Pc)
    requires BoardOk(cfg, b) && ThreadOk(cfg, b, u, q) && !Orders(b, ShutEntry)
    ensures ThreadOk(cfg, Move(cfg, b, t, ShutEntry, ok).0, u, q)
  {
  }

  // ---------------------------------------------------------------- whole steps

  lemma OrderMoves(cfg: Config, b: Board, g: nat)
    requires BoardOk(cfg, b) && (b.sh.phase.Idle? || b.sh.phase.Running?)
    ensures Kept(cfg, g, Order(b, g)) && ThreadOk(cfg, Order(b, g).0, 0, ShutWaiting(Some(|b.channels|)))
  {
  }

  lemma OrderLeaves(cfg: Config, b: Board, g: nat, u: nat, q: Pc)
    requires BoardOk(cfg, b) && (b.sh.phase.Idle? || b.sh.phase.Running?) && ThreadOk(cfg, b, u, q)
    ensures ThreadOk(cfg, Order(b, g).0, u, q)
  {
  }

  lemma OrderCovers(s: State, t: nat, g: nat, r: (Board, Pc))
    requires Covered(s) && |s.board.channels| == |s.board.holder|
    requires t in s.threads && !Holds(s.threads[t]) && g !in s.threads
    requires r.0.channels == s.board.channels + [0] && r.0.holder == s.board.holder + [g]
    requires Holds(r.1) && r.1.c == |s.board.channels|
    ensures Covered(State(r.0, s.threads[g := r.1][t := ShutWaiting(Some(r.1.c))]))
  {
  }

  lemma AllOrderLeaves(cfg: Config, s: State, t: nat, g: nat)
    requires Inv(cfg, s) && t in s.threads && Orders(s.board, s.threads[t]) && g !in s.threads
    ensures var r := Order(s.board, g); var threads := s.threads[g := r.1][t := ShutWaiting(Some(r.1.c))];
            forall u :: u in threads ==> ThreadOk(cfg, r.0, u, threads[u])
  {
    var r := Order(s.board, g);
    var threads := s.threads[g := r.1][t := ShutWaiting(Some(r.1.c))];
    OrderMoves(cfg, s.board, g);
    forall u | u in threads
      ensures ThreadOk(cfg, r.0, u, threads[u])
    {
      if u != t && u != g {
        OrderLeaves(cfg, s.board, g, u, s.threads[u]);
      }
    }
  }

  lemma OrderKeeps(cfg: Config, s: State, t: nat, g: nat, ok: bool)
    requires Inv(cfg, s) && t in s.threads && Orders(s.board, s.threads[t]) && g !in s.threads
    ensures Inv(cfg, Next(cfg, s, Advance(t, ok, g)))
  {
    OrderMoves(cfg, s.board, g);
    OrderCovers(s, t, g, Order(s.board, g));
    AllOrderLeaves(cfg, s, t, g);
  }

  /** A move keeps its channel, takes a new one, or closes the one it holds. */
  predicate Retains(b: Board, t: nat, pc: Pc, r: (Board, Pc)) {
    || (r.0.channels == b.channels && r.0.holder == b.holder && (Holds(pc) ==> Holds(r.1) && r.1.c == pc.c))
    || (&& r.0.channels == b.channels + [0] && r.0.holder == b.holder + [t]
        && !Holds(pc) && Holds(r.1) && r.1.c == |b.channels|)
    || (&& Holds(pc) && r.0.holder == b.holder && pc.c < |b.channels|
        && r.0.channels == b.channels[pc.c := b.channels[pc.c] + 1])
  }

  lemma MoveRetains(cfg: Config, b: Board, t: nat, pc: Pc, ok: bool)
    requires ThreadOk(cfg, b, t, pc) && !Orders(b, pc)
    ensures Retains(b, t, pc, Move(cfg, b, t, pc, ok))
  {
    if Startup(pc) {
      StartupRetains(cfg, b, t, pc, ok);
    } else if Teardown(pc) {
      TeardownRetains(cfg, b, t, pc, ok);
    } else {
      CallerRetains(cfg, b, t, pc, ok);
    }
  }

  lemma StartupRetains(cfg: Config, b: Board, t: nat, pc: Pc, ok: bool)
    requires Startup(pc)
    ensures Retains(b, t, pc, MoveStartup(cfg, b, pc, ok))
  {
  }

  lemma TeardownRetains(cfg: Config, b: Board, t: nat, pc: Pc, ok: bool)
    requires Teardown(pc) && Owns(b, t, pc.c)
    ensures Retains(b, t, pc, MoveTeardown(cfg, b, pc, ok))
  {
  }

  lemma CallerRetains(cfg: Config, b: Board, t: nat, pc: Pc, ok: bool)
    requires !Startup(pc) && !Teardown(pc) && (pc.Closing? ==> Owns(b, t, pc.c)) && !Orders(b, pc)
    ensures Retains(b, t, pc, MoveCaller(cfg, b, t, pc, ok))
  {
  }

  lemma MoveCovers(s: State, t: nat, r: (Board, Pc))
    requires Covered(s) && |s.board.channels| == |s.board.holder| && t in s.threads
    requires Retains(s.board, t, s.threads[t], r)
    ensures Covered(State(r.0, s.threads[t := r.1]))
  {
  }

  lemma Assemble(cfg: Config, s': State, s: State, t: nat)
    requires BoardOk(cfg, s'.board) && Covered(s') && t in s'.threads && s'.threads == s.threads[t := s'.threads[t]]
    requires ThreadOk(cfg, s'.board, t, s'.threads[t])
    requires forall u :: u in s.threads && u != t ==> ThreadOk(cfg, s'.board, u, s.threads[u])
    ensures Inv(cfg, s')
  {
  }

  lemma AllOthersKeep(cfg: Config, s: State, t: nat, ok: bool)
    requires Inv(cfg, s) && t in s.threads && !Orders(s.board, s.threads[t])
    ensures var b' := Move(cfg, s.board, t, s.threads[t], ok).0;
            forall u :: u in s.threads && u != t ==> ThreadOk(cfg, b', u, s.threads[u])
  {
    forall u | u in s.threads && u != t
      ensures ThreadOk(cfg, Move(cfg, s.board, t, s.threads[t], ok).0, u, s.threads[u])
    {
      OthersKeep(cfg, s.board, t, s.threads[t], ok, u, s.threads[u]);
    }
  }

  lemma MoverKeeps(cfg: Config, s: State, t: nat, ok: bool)
    requires Inv(cfg, s) && t in s.threads && !Orders(s.board, s.threads[t])
    ensures var r := Move(cfg, s.board, t, s.threads[t], ok);
            Kept(cfg, t, r) && Covered(State(r.0, s.threads[t := r.1]))
  {
    var b, pc := s.board, s.threads[t];
    assert ThreadOk(cfg, b, t, pc);
    OwnMove(cfg, b, t, pc, ok);
    MoveRetains(cfg, b, t, pc, ok);
    MoveCovers(s, t, Move(cfg, b, t, pc, ok));
  }

  lemma MoveKeeps(cfg: Config, s: State, t: nat, g: nat, ok: bool)
    requires Inv(cfg, s) && t in s.threads && !Orders(s.board, s.threads[t])
    ensures Inv(cfg, Next(cfg, s, Advance(t, ok, g)))
  {
    MoverKeeps(cfg, s, t, ok);
    AllOthersKeep(cfg, s, t, ok);
    Assemble(cfg, Next(cfg, s, Advance(t, ok, g)), s, t);
  }

  lemma CallKeeps(cfg: Config, s: State, t: nat, pc: Pc)
    requires Inv(cfg, s) && t !in s.threads && (pc.StartEntry? || pc.ShutEntry?)
    ensures Inv(cfg, State(s.board, s.threads[t := pc]))
  {
  }

  lemma EndContextKeeps(cfg: Config, s: State)
    requires Inv(cfg, s)
    ensures Inv(cfg, Next(cfg, s, EndContext))
  {
    var b := s.board.(canceled := true);
    forall u | u in s.threads
      ensures ThreadOk(cfg, b, u, s.threads[u])
    {
      EndContextLeaves(cfg, s.board, u, s.threads[u]);
    }
  }

  lemma EndContextLeaves(cfg: Config, b: Board, u: nat, q: Pc)
    requires ThreadOk(cfg, b, u, q)
    ensures ThreadOk(cfg, b.(canceled := true), u, q)
  {
  }

  lemma StepKeeps(cfg: Config, s: State, a: Action)
    requires Inv(cfg, s)
    ensures Inv(cfg, Next(cfg, s, a))
  {
    match a
    case CallStart(t) => if t !in s.threads { CallKeeps(cfg, s, t, StartEntry); }
    case CallShutdown(t) => if t !in s.threads { CallKeeps(cfg, s, t, ShutEntry); }
    case EndContext => EndContextKeeps(cfg, s);
    case Advance(t, ok, g) =>
      if t in s.threads {
        if !Orders(s.board, s.threads[t]) {
          MoveKeeps(cfg, s, t, g, ok);
        } else if g !in s.threads {
          OrderKeeps(cfg, s, t, g, ok);
        }
      }
  }

  /** The invariant holds after every sequence of steps. */
  lemma {:induction false} EveryRun(cfg: Config, actions: seq<Action>)
    ensures Inv(cfg, Run(cfg, actions))
  {
    if actions != [] {
      var before := actions[..|actions| - 1];
      EveryRun(cfg, before);
      StepKeeps(cfg, Run(cfg, before), actions[|actions| - 1]);
    }
  }
}
