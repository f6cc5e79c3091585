/**
 * Every interleaving of any number of Start and Shutdown callers.
 *
 * A step is one critical section, one call into a component or cleanup function, one receive
 * from a done channel, or one close. Which caller moves next, whether a component's Start, Stop
 * or cleanup succeeds, and whether a waiter's own context ends first are all free choices.
 */
module LifecycleRuns {
  import opened Common
  import opened Lifecycle

  /** Which component and cleanup slots hold a non-nil value. */
  datatype Config = Config(components: seq<bool>, cleanups: seq<bool>)

  /** What an observer of the components sees, in order. */
  datatype Event =
    | StartBegan(component: nat)
    | StartSucceeded(component: nat)
    | StartErred(component: nat)
    | BecameRunning
    | StopRequested                       // a shutdown call set the stop request
    | StopRan(component: nat, ok: bool)
    | CleanupRan(index: nat, ok: bool)

  /** Program counter of one goroutine. */
  datatype Pc =
    // Start callers that do not own the startup
    | StartEntry
    | StartWaiting(channel: Option<nat>)
    | StartReading
    | StartReturned(err: Errors)
    // the caller that owns the startup; c is its done channel
    | Head(c: nat, i: nat)                 // loop head for slot i, or the final check
    | Gate(c: nat, i: nat, stop: bool)     // the stop request has been read
    | Calling(c: nat, i: nat)              // inside component i's Start
    | Settled(c: nat, i: nat)              // Start returned without error
    | PostStart(c: nat, i: nat, stop: bool)
    | Unwinding(c: nat, cause: Cause)      // about to move to stopping
    // teardown, by the startup owner or by the shutdown goroutine
    | Draining(c: nat, cause: Cause, todo: seq<nat>, stopErr: Errors)
    | Cleaning(c: nat, cause: Cause, stopErr: Errors, k: nat, errs: Errors)
    | Tallying(c: nat, cause: Cause, stopErr: Errors)
    | Sealing(c: nat, cause: Cause, stopErr: Errors, cleaned: Errors)
    | Closing(c: nat, ran: bool)           // close(done) outside the lock
    // Shutdown callers
    | ShutEntry
    | ShutCancelling(channel: Option<nat>)
    | ShutWaiting(channel: Option<nat>)
    | ShutReading
    | ShutReturned(err: Errors)
    // ends
    | Expired                              // the call returned its own context's error
    | Finished

  /** Everything the goroutines share, with the history of what they did to the components. */
  datatype Board = Board(
    sh: Shared,
    canceled: bool,              // the startup context has ended
    once: bool,                  // cleanupOnce has been entered
    channels: seq<nat>,          // how often each done channel was closed
    holder: seq<nat>,            // history: the goroutine that was given each channel to close
    log: seq<Event>,
    tally: Tally)                // what the log amounts to; Read(log) in every run

  datatype State = State(board: Board, threads: map<nat, Pc>)

  const BLANK := Board(FRESH, false, false, [], [], [], ZERO)
  const INITIAL := State(BLANK, map[])

  /** One step of the environment or of a goroutine. `g` names a goroutine it may spawn. */
  datatype Action =
    | CallStart(t: nat)
    | CallShutdown(t: nat)
    | EndContext
    | Advance(t: nat, ok: bool, g: nat)

  function Next(cfg: Config, s: State, a: Action): State {
    match a
    case CallStart(t) => if t in s.threads then s else s.(threads := s.threads[t := StartEntry])
    case CallShutdown(t) => if t in s.threads then s else s.(threads := s.threads[t := ShutEntry])
    case EndContext => s.(board := s.board.(canceled := true))
    case Advance(t, ok, g) =>
      if t !in s.threads then s
      else if Orders(s.board, s.threads[t]) then
        if g in s.threads then s else
          var (board, pc) := Order(s.board, g);
          State(board, s.threads[g := pc][t := ShutWaiting(Some(pc.c))])
      else
        var (board, pc) := Move(cfg, s.board, t, s.threads[t], ok);
        State(board, s.threads[t := pc])
  }

  function Run(cfg: Config, actions: seq<Action>): State {
    if actions == [] then INITIAL
    else Next(cfg, Run(cfg, actions[..|actions| - 1]), actions[|actions| - 1])
  }

  /** A shutdown call that finds the process idle or running starts a goroutine to stop it. */
  predicate Orders(b: Board, pc: Pc) {
    pc.ShutEntry? && (b.sh.phase.Idle? || b.sh.phase.Running?)
  }

  /** What goroutine `g` is given to do, and the channel its caller then waits on. */
  function Order(b: Board, g: nat): (Board, Pc)
    requires b.sh.phase.Idle? || b.sh.phase.Running?
  {
    var c := |b.channels|;
    var (sh, entry) := EnterShutdown(b.sh, c);
    (Log(b, StopRequested).(sh := sh, canceled := b.canceled || b.sh.startCancel,
        channels := b.channels + [0], holder := b.holder + [g]),
     Draining(c, Ordered, entry.indexes, []))
  }

  predicate Present(flags: seq<bool>, i: nat) {
    i < |flags| && flags[i]
  }

  predicate Closed(b: Board, channel: Option<nat>) {
    channel.Some? && channel.value < |b.channels| && b.channels[channel.value] > 0
  }

  function Close(b: Board, c: nat): Board {
    if c < |b.channels| then b.(channels := b.channels[c := b.channels[c] + 1]) else b
  }

  function Log(b: Board, e: Event): Board {
    b.(log := b.log + [e], tally := Count(b.tally, e))
  }

  /** The step of goroutine `t` from `pc`; `ok` settles whichever outcome the step leaves open. */
  function Move(cfg: Config, b: Board, t: nat, pc: Pc, ok: bool): (Board, Pc) {
    if Startup(pc) then MoveStartup(cfg, b, pc, ok)
    else if Teardown(pc) then MoveTeardown(cfg, b, pc, ok)
    else MoveCaller(cfg, b, t, pc, ok)
  }

  function MoveCaller(cfg: Config, b: Board, t: nat, pc: Pc, ok: bool): (Board, Pc)
    requires !Startup(pc) && !Teardown(pc)
  {
    match pc
    case StartEntry =>
      var (sh, entry) := EnterStart(b.sh, |cfg.components|, |b.channels|);
      (match entry
       case Answer(err) => (b, StartReturned(err))
       case Await(ch) => (b, StartWaiting(ch))
       case Own(c, _) => (b.(sh := sh, channels := b.channels + [0], holder := b.holder + [t]), Head(c, 0)))
    case StartWaiting(ch) =>
      (b, if !ok then Expired else if Closed(b, ch) then StartReading else pc)
    case StartReading => (b, StartReturned(b.sh.startErr))
    case ShutEntry =>
      var (sh, entry) := EnterShutdown(b.sh, |b.channels|);
      (match entry
       case Answer(err) => (b, ShutReturned(err))
       case Await(ch) =>
         if b.sh.phase.Starting? then (Log(b.(sh := sh), StopRequested), ShutCancelling(ch)) else (b, ShutWaiting(ch))
       case Own(_, _) => (b, pc))
    case ShutCancelling(ch) => (b.(canceled := true), ShutWaiting(ch))
    case ShutWaiting(ch) =>
      (b, if !ok then Expired else if Closed(b, ch) then ShutReading else pc)
    case ShutReading => (b, ShutReturned(b.sh.shutdownErr))
    case Closing(c, ran) => (Close(b, c), if ran then StartReturned([]) else Finished)
    case _ => (b, pc)
  }

  predicate Startup(pc: Pc) {
    pc.Head? || pc.Gate? || pc.Calling? || pc.Settled? || pc.PostStart? || pc.Unwinding?
  }

  predicate Teardown(pc: Pc) {
    pc.Draining? || pc.Cleaning? || pc.Tallying? || pc.Sealing?
  }

  function MoveStartup(cfg: Config, b: Board, pc: Pc, ok: bool): (Board, Pc)
    requires Startup(pc)
  {
    match pc
    case Head(c, i) =>
      if i < |cfg.components| then (b, Gate(c, i, b.sh.stopReq)) else
        var (sh, stop) := FinalGate(b.sh, |cfg.components|, b.canceled);
        if stop.Some? then (b, Unwinding(c, stop.value))
        else (Log(b.(sh := sh), BecameRunning), Closing(c, true))
    case Gate(c, i, stop) =>
      if stop then (b, Unwinding(c, Requested))
      else if b.canceled then (b, Unwinding(c, Aborted(i)))
      else if !Present(cfg.components, i) then (b, Head(c, i + 1))
      else (Log(b, StartBegan(i)), Calling(c, i))
    case Calling(c, i) =>
      if ok then (Log(b, StartSucceeded(i)), Settled(c, i))
      else (Log(b, StartErred(i)), Unwinding(c, Failed(i)))
    case Settled(c, i) =>
      var (sh, stop) := RecordStarted(b.sh, i);
      (b.(sh := sh), PostStart(c, i, stop))
    case PostStart(c, i, stop) =>
      (b, if stop then Unwinding(c, Requested) else if b.canceled then Unwinding(c, Aborted(i)) else Head(c, i + 1))
    case Unwinding(c, cause) =>
      var (sh, indexes) := BeginUnwind(b.sh);
      (b.(sh := sh, canceled := b.canceled || !cause.Requested?), Draining(c, cause, indexes, []))
  }

  function MoveTeardown(cfg: Config, b: Board, pc: Pc, ok: bool): (Board, Pc)
    requires Teardown(pc)
  {
    match pc
    case Draining(c, cause, todo, stopErr) =>
      if todo != [] then
        var i, rest := todo[|todo| - 1], todo[..|todo| - 1];
        if !Present(cfg.components, i) then (b, Draining(c, cause, rest, stopErr))
        else (Log(b, StopRan(i, ok)), Draining(c, cause, rest, if ok then stopErr else stopErr + [StopFault(i)]))
      else if b.once then (b, AfterCleanup(c, cause, stopErr))
      else (b.(once := true), Cleaning(c, cause, stopErr, |cfg.cleanups|, []))
    case Cleaning(c, cause, stopErr, k, errs) =>
      if k > 0 then
        if !Present(cfg.cleanups, k - 1) then (b, Cleaning(c, cause, stopErr, k - 1, errs))
        else (Log(b, CleanupRan(k - 1, ok)),
              Cleaning(c, cause, stopErr, k - 1, if ok then errs else errs + [CleanupFault(k - 1)]))
      else (b.(sh := RecordCleanup(b.sh, errs)), AfterCleanup(c, cause, stopErr))
    case Tallying(c, cause, stopErr) => (b, Sealing(c, cause, stopErr, b.sh.cleanupErr))
    case Sealing(c, cause, stopErr, cleaned) =>
      if cause.Ordered? then (b.(sh := SealShutdown(b.sh, stopErr)), Closing(c, false)) else
        var sh := SealStartup(b.sh, cause, stopErr, cleaned);
        (Close(b.(sh := sh), c), StartReturned(sh.startErr))
  }

  /** An ordered shutdown reads the cleanup error inside its terminal section, a startup before it. */
  function AfterCleanup(c: nat, cause: Cause, stopErr: Errors): Pc {
    if cause.Ordered? then Sealing(c, cause, stopErr, []) else Tallying(c, cause, stopErr)
  }

  // ---------------------------------------------------------------- reading the log

  /** What a log amounts to so far. */
  datatype Tally = Tally(
    successes: seq<nat>,   // components whose Start succeeded, in order
    stops: seq<nat>,       // components whose Stop ran, in order
    cleanups: seq<nat>,    // cleanup slots that ran, in order
    faults: Errors,        // errors returned by Stops and cleanups, in order
    asked: bool,           // a stop has been requested
    ran: bool,             // the process has been running
    late: nat,             // Starts that began after the first stop request
    begun: nat,            // above every component whose Start began
    level: nat,            // 0: starts only, 1: stops too, 2: cleanups too
    orderly: bool)         // no Start after a stop or out of slot order, no Stop after a cleanup,
                           // and never running after a stop request

  const ZERO := Tally([], [], [], [], false, false, 0, 0, 0, true)

  function Count(y: Tally, e: Event): Tally {
    match e
    case StartBegan(i) =>
      y.(begun := i + 1, late := y.late + if y.asked then 1 else 0,
         orderly := y.orderly && y.level == 0 && y.begun <= i)
    case StartSucceeded(i) => y.(successes := y.successes + [i], orderly := y.orderly && y.level == 0)
    case StartErred(_) => y.(orderly := y.orderly && y.level == 0)
    case BecameRunning => y.(ran := true, orderly := y.orderly && y.level == 0 && !y.asked)
    case StopRequested => y.(asked := true, orderly := y.orderly && y.level == 0)
    case StopRan(i, ok) =>
      y.(stops := y.stops + [i], faults := if ok then y.faults else y.faults + [StopFault(i)],
         level := if y.level < 1 then 1 else y.level, orderly := y.orderly && y.level <= 1)
    case CleanupRan(k, ok) =>
      y.(cleanups := y.cleanups + [k], faults := if ok then y.faults else y.faults + [CleanupFault(k)], level := 2)
  }

  function Read(log: seq<Event>): Tally {
    if log == [] then ZERO
    else Count(Read(log[..|log| - 1]), log[|log| - 1])
  }

  lemma ReadAppend(log: seq<Event>, e: Event)
    ensures Read(log + [e]) == Count(Read(log), e)
  {
    assert (log + [e])[..|log|] == log;
  }

  /** What every tally satisfies. */
  predicate Bounded(y: Tally) {
    && y.level <= 2
    && (y.level == 0 ==> y.stops == [] && y.faults == [])
    && (y.level <= 1 ==> y.cleanups == [])
    && (!y.asked ==> y.late == 0)
  }

  lemma {:induction false} ReadBounds(log: seq<Event>)
    ensures Bounded(Read(log))
  {
    if log != [] {
      ReadBounds(log[..|log| - 1]);
    }
  }

  /** The board's tally is what its log amounts to. */
  predicate Tallied(b: Board) {
    b.tally == Read(b.log)
  }

  /** A step leaves the log alone or adds one event to it. */
  ghost predicate Appends(b: Board, b': Board) {
    || (b'.log == b.log && b'.tally == b.tally)
    || exists e :: Added(b, e, b')
  }

  predicate Added(b: Board, e: Event, b': Board) {
    b'.log == b.log + [e] && b'.tally == Count(b.tally, e)
  }

  lemma StartupAppends(cfg: Config, b: Board, pc: Pc, ok: bool)
    requires Startup(pc)
    ensures Appends(b, MoveStartup(cfg, b, pc, ok).0)
  {
    var b' := MoveStartup(cfg, b, pc, ok).0;
    match pc
    case Head(_, _) => assert b'.log == b.log || Added(b, BecameRunning, b');
    case Gate(_, i, _) => assert b'.log == b.log || Added(b, StartBegan(i), b');
    case Calling(_, i) => assert Added(b, if ok then StartSucceeded(i) else StartErred(i), b');
    case _ =>
  }

  lemma TeardownAppends(cfg: Config, b: Board, pc: Pc, ok: bool)
    requires Teardown(pc)
    ensures Appends(b, MoveTeardown(cfg, b, pc, ok).0)
  {
    var b' := MoveTeardown(cfg, b, pc, ok).0;
    if pc.Draining? && pc.todo != [] {
      assert b'.log == b.log || Added(b, StopRan(pc.todo[|pc.todo| - 1], ok), b');
    } else if pc.Cleaning? && pc.k > 0 {
      assert b'.log == b.log || Added(b, CleanupRan(pc.k - 1, ok), b');
    }
  }

  lemma CallerAppends(cfg: Config, b: Board, t: nat, pc: Pc, ok: bool)
    requires !Startup(pc) && !Teardown(pc)
    ensures Appends(b, MoveCaller(cfg, b, t, pc, ok).0)
  {
    var b' := MoveCaller(cfg, b, t, pc, ok).0;
    if pc.ShutEntry? && b.sh.phase.Starting? {
      assert Added(b, StopRequested, b');
    }
  }

  lemma StepAppends(cfg: Config, s: State, a: Action)
    ensures Appends(s.board, Next(cfg, s, a).board)
  {
    if a.Advance? && a.t in s.threads {
      var pc := s.threads[a.t];
      if Orders(s.board, pc) {
        assert a.g !in s.threads ==> Added(s.board, StopRequested, Order(s.board, a.g).0);
      } else if Startup(pc) {
        StartupAppends(cfg, s.board, pc, a.ok);
      } else if Teardown(pc) {
        TeardownAppends(cfg, s.board, pc, a.ok);
      } else {
        CallerAppends(cfg, s.board, a.t, pc, a.ok);
      }
    }
  }

  lemma {:induction false} EveryTally(cfg: Config, actions: seq<Action>)
    ensures Tallied(Run(cfg, actions).board)
  {
    if actions != [] {
      var n := |actions| - 1;
      EveryTally(cfg, actions[..n]);
      var b, b' := Run(cfg, actions[..n]).board, Run(cfg, actions).board;
      StepAppends(cfg, Run(cfg, actions[..n]), actions[n]);
      if b'.log != b.log || b'.tally != b.tally {
        var e :| Added(b, e, b');
        ReadAppend(b.log, e);
      }
    }
  }
}
