/**
 * Why a process is torn down: every teardown has its reason, a startup without one succeeds, and a
 * stop request that is seen in time is the reason.
 */
module LifecycleReasons {
  import opened Common
  import opened Lifecycle
  import opened LifecycleRuns
  import opened LifecycleInvariant
  import opened LifecycleProgress

  /** The non-nil slots below `i`. */
  function Slots(cfg: Config, i: nat): seq<nat>
    requires i <= |cfg.components|
  {
    Indexes(cfg.components[..i])
  }

  /** Exactly the non-nil slots below `i` have been started. */
  predicate Reached(cfg: Config, b: Board, i: nat) {
    i <= |cfg.components| && b.tally.successes == Slots(cfg, i)
  }

  /** The startup context can have ended: by itself or because a shutdown was asked for. */
  predicate MayEnd(b: Board, ended: bool) {
    ended || b.tally.asked
  }

  /**
   * What a cause says of the past. A failure is that of the component whose Start failed next, an
   * abort comes after the end of the startup context, and after the last component only by
   * that context itself, a request and an order after a stop request; only an order finds
   * the process running, with all components started.
   */
  predicate Why(cfg: Config, b: Board, ended: bool, cause: Cause) {
    var n := |cfg.components|;
    match cause
    case Failed(i) => Present(cfg.components, i) && StartErred(i) in b.log && Reached(cfg, b, i) && !b.tally.ran
    case Aborted(i) =>
      && (Reached(cfg, b, i) || (Present(cfg.components, i) && Reached(cfg, b, i + 1)))
      && MayEnd(b, ended) && (i == n ==> ended) && !b.tally.ran
    case Requested => b.tally.asked && !b.tally.ran && exists i :: 0 <= i <= n && Reached(cfg, b, i)
    case Ordered => b.tally.asked && if b.tally.ran then Reached(cfg, b, n) else b.tally.successes == []
  }

  /** A teardown has cut the startup context off, unless it leaves that to the caller that asked for it. */
  predicate Cut(b: Board, cause: Cause) {
    cause.Failed? || cause.Aborted? || (cause.Ordered? && b.tally.ran) ==> b.canceled
  }

  /** The answer of every Start from the end of the teardown on. */
  function Terminal(cause: Cause, faults: Errors): Errors {
    match cause
    case Failed(i) => [StartFault(i)] + faults
    case Aborted(i) => [StartFault(i)] + faults
    case Requested => [Canceled] + faults
    case Ordered => [Canceled]
  }

  /** The terminal error is that of a cause with its past, followed by what the teardown reported. */
  ghost predicate Explained(cfg: Config, b: Board, ended: bool) {
    exists cause :: Why(cfg, b, ended, cause) && b.sh.startErr == Terminal(cause, b.tally.faults)
  }

  predicate Answered(b: Board, err: Errors) {
    (err == [] && b.tally.ran) || (b.sh.phase.Stopped? && err == b.sh.startErr)
  }

  predicate ThreadTold(cfg: Config, b: Board, ended: bool, pc: Pc) {
    match pc
    case Head(_, i) => Reached(cfg, b, i)
    case Gate(_, i, _) => Reached(cfg, b, i)
    case Calling(_, i) => Reached(cfg, b, i)
    case Settled(_, i) => Reached(cfg, b, i + 1)
    case PostStart(_, i, _) => Present(cfg.components, i) && Reached(cfg, b, i + 1)
    case Unwinding(_, cause) => Why(cfg, b, ended, cause)
    case Draining(_, cause, _, _) => Why(cfg, b, ended, cause) && Cut(b, cause)
    case Cleaning(_, cause, _, _, _) => Why(cfg, b, ended, cause) && Cut(b, cause)
    case Tallying(_, cause, _) => Why(cfg, b, ended, cause) && Cut(b, cause)
    case Sealing(_, cause, _, _) => Why(cfg, b, ended, cause) && Cut(b, cause)
    case ShutWaiting(_) => b.canceled || !b.sh.phase.Starting?
    case Closing(_, ran) => ran || b.tally.asked
    case Finished => b.tally.asked
    case StartReturned(err) => Answered(b, err)
    case _ => true
  }

  /** No component counts as started any more. */
  predicate NoFlags(sh: Shared) {
    forall i :: 0 <= i < |sh.started| ==> !sh.started[i]
  }

  ghost predicate BoardTold(cfg: Config, b: Board, ended: bool) {
    && (b.canceled ==> MayEnd(b, ended) || b.sh.phase.Stopping? || b.sh.phase.Stopped?)
    && (b.tally.ran ==> Reached(cfg, b, |cfg.components|))
    && (b.sh.phase.Starting? || b.sh.phase.Running? ==> b.sh.startCancel)
    && (b.sh.phase.Stopping? || b.sh.phase.Stopped? ==> NoFlags(b.sh))
    && (b.sh.phase.Stopped? ==> !b.sh.startCancel)
    && (if b.sh.phase.Stopped? then Explained(cfg, b, ended) else b.sh.startErr == [])
  }

  /** A closed channel's goroutine is done. */
  predicate Parted(s: State) {
    forall c :: 0 <= c < |s.board.channels| && c < |s.board.holder| && s.board.channels[c] > 0 ==>
      && s.board.holder[c] in s.threads
      && (s.threads[s.board.holder[c]].StartReturned? || s.threads[s.board.holder[c]].Finished?)
  }

  ghost predicate Told(cfg: Config, s: State, ended: bool) {
    && BoardTold(cfg, s.board, ended) && Parted(s)
    && forall t :: t in s.threads ==> ThreadTold(cfg, s.board, ended, s.threads[t])
  }

  // ---------------------------------------------------------------- the moving goroutine

  ghost predicate KeptTold(cfg: Config, ended: bool, r: (Board, Pc)) {
    BoardTold(cfg, r.0, ended) && ThreadTold(cfg, r.0, ended, r.1)
  }

  lemma HeadTells(cfg: Config, b: Board, t: nat, pc: Pc, ok: bool, ended: bool)
    requires BoardOk(cfg, b) && pc.Head? && StartupOk(cfg, b, t, pc)
    requires BoardTold(cfg, b, ended) && ThreadTold(cfg, b, ended, pc)
    ensures KeptTold(cfg, ended, MoveStartup(cfg, b, pc, ok))
  {
  }

  lemma NextSlot(cfg: Config, b: Board, i: nat)
    requires i < |cfg.components| && Reached(cfg, b, i)
    ensures if Present(cfg.components, i) then Slots(cfg, i + 1) == b.tally.successes + [i] else Reached(cfg, b, i + 1)
  {
    IndexesSplit(cfg.components, i);
  }

  /** While the process is starting the board only has to account for an ended context. */
  lemma UnfinishedTold(cfg: Config, b: Board, ended: bool)
    requires b.sh.phase.Starting? && b.sh.startCancel && (b.canceled ==> MayEnd(b, ended))
    requires b.sh.startErr == [] && !b.tally.ran
    ensures BoardTold(cfg, b, ended)
  {
  }

  lemma GateTells(cfg: Config, b: Board, t: nat, pc: Pc, ok: bool, ended: bool)
    requires pc.Gate? && StartupOk(cfg, b, t, pc) && PhaseOk(cfg, b) && LogOk(b)
    requires BoardTold(cfg, b, ended) && ThreadTold(cfg, b, ended, pc)
    ensures KeptTold(cfg, ended, MoveStartup(cfg, b, pc, ok))
  {
    var b' := MoveStartup(cfg, b, pc, ok).0;
    NextSlot(cfg, b, pc.i);
    UnfinishedTold(cfg, b', ended);
  }

  lemma CallingTells(cfg: Config, b: Board, t: nat, pc: Pc, ok: bool, ended: bool)
    requires pc.Calling? && StartupOk(cfg, b, t, pc) && PhaseOk(cfg, b)
    requires BoardTold(cfg, b, ended) && ThreadTold(cfg, b, ended, pc)
    ensures KeptTold(cfg, ended, MoveStartup(cfg, b, pc, ok))
  {
    var b' := MoveStartup(cfg, b, pc, ok).0;
    NextSlot(cfg, b, pc.i);
    UnfinishedTold(cfg, b', ended);
    if !ok {
      assert b'.log[|b.log|] == StartErred(pc.i);
    }
  }

  lemma SettledTells(cfg: Config, b: Board, t: nat, pc: Pc, ok: bool, ended: bool)
    requires BoardOk(cfg, b) && (pc.Settled? || pc.PostStart?) && StartupOk(cfg, b, t, pc)
    requires BoardTold(cfg, b, ended) && ThreadTold(cfg, b, ended, pc)
    ensures KeptTold(cfg, ended, MoveStartup(cfg, b, pc, ok))
  {
  }

  lemma UnwindingTells(cfg: Config, b: Board, t: nat, pc: Pc, ok: bool, ended: bool)
    requires BoardOk(cfg, b) && pc.Unwinding? && StartupOk(cfg, b, t, pc)
    requires BoardTold(cfg, b, ended) && ThreadTold(cfg, b, ended, pc)
    ensures KeptTold(cfg, ended, MoveStartup(cfg, b, pc, ok))
  {
    var b' := MoveStartup(cfg, b, pc, ok).0;
    StartupGrows(cfg, b, pc, ok);
    StaysWhy(cfg, b, b', ended, ended, pc.cause);
  }

  lemma TeardownTells(cfg: Config, b: Board, t: nat, pc: Pc, ok: bool, ended: bool)
    requires BoardOk(cfg, b) && Teardown(pc) && TeardownOk(cfg, b, t, pc)
    requires BoardTold(cfg, b, ended) && ThreadTold(cfg, b, ended, pc)
    ensures KeptTold(cfg, ended, MoveTeardown(cfg, b, pc, ok))
  {
    if pc.Sealing? {
      SealTells(cfg, b, t, pc, ok, ended);
    } else {
      TearsOnTold(cfg, b, t, pc, ok, ended);
    }
  }

  lemma TearsOnTold(cfg: Config, b: Board, t: nat, pc: Pc, ok: bool, ended: bool)
    requires Teardown(pc) && !pc.Sealing? && TeardownOk(cfg, b, t, pc)
    requires BoardTold(cfg, b, ended) && ThreadTold(cfg, b, ended, pc)
    ensures KeptTold(cfg, ended, MoveTeardown(cfg, b, pc, ok))
  {
    var (b', pc') := MoveTeardown(cfg, b, pc, ok);
    TeardownGrows(cfg, b, pc, ok);
    StaysWhy(cfg, b, b', ended, ended, pc.cause);
    assert Teardown(pc') && pc'.cause == pc.cause;
    assert b'.sh.phase == b.sh.phase && b'.sh.startErr == b.sh.startErr;
  }

  /** The terminal sections record the error of the cause. */
  lemma SealRecords(cfg: Config, b: Board, t: nat, pc: Pc, ok: bool, ended: bool)
    requires BoardOk(cfg, b) && pc.Sealing? && TeardownOk(cfg, b, t, pc)
    requires BoardTold(cfg, b, ended) && Why(cfg, b, ended, pc.cause)
    ensures var b' := MoveTeardown(cfg, b, pc, ok).0;
            && b'.sh.phase.Stopped? && b'.tally == b.tally && b'.log == b.log
            && b'.sh.startErr == Terminal(pc.cause, b'.tally.faults)
  {
    var told := pc.cause.Errors();
    assert told + pc.stopErr + pc.cleaned == told + (pc.stopErr + pc.cleaned);
  }

  lemma SealTells(cfg: Config, b: Board, t: nat, pc: Pc, ok: bool, ended: bool)
    requires BoardOk(cfg, b) && pc.Sealing? && TeardownOk(cfg, b, t, pc)
    requires BoardTold(cfg, b, ended) && ThreadTold(cfg, b, ended, pc)
    ensures KeptTold(cfg, ended, MoveTeardown(cfg, b, pc, ok))
  {
    var b' := MoveTeardown(cfg, b, pc, ok).0;
    SealRecords(cfg, b, t, pc, ok, ended);
    StaysWhy(cfg, b, b', ended, ended, pc.cause);
    assert Explained(cfg, b', ended);
  }

  lemma CallerTells(cfg: Config, b: Board, t: nat, pc: Pc, ok: bool, ended: bool)
    requires BoardOk(cfg, b) && !Startup(pc) && !Teardown(pc) && CallerOk(b, t, pc) && !Orders(b, pc)
    requires BoardTold(cfg, b, ended) && ThreadTold(cfg, b, ended, pc)
    ensures KeptTold(cfg, ended, MoveCaller(cfg, b, t, pc, ok))
  {
    CallerBoardTold(cfg, b, t, pc, ok, ended);
    CallerThreadTold(cfg, b, t, pc, ok, ended);
  }

  lemma CallerBoardTold(cfg: Config, b: Board, t: nat, pc: Pc, ok: bool, ended: bool)
    requires BoardOk(cfg, b) && !Startup(pc) && !Teardown(pc) && CallerOk(b, t, pc) && !Orders(b, pc)
    requires BoardTold(cfg, b, ended)
    ensures BoardTold(cfg, MoveCaller(cfg, b, t, pc, ok).0, ended)
  {
    var b' := MoveCaller(cfg, b, t, pc, ok).0;
    if b.sh.phase.Stopped? {
      CallerGrows(cfg, b, t, pc, ok);
      StaysExplained(cfg, b, b', ended, ended);
    }
  }

  lemma CallerThreadTold(cfg: Config, b: Board, t: nat, pc: Pc, ok: bool, ended: bool)
    requires BoardOk(cfg, b) && !Startup(pc) && !Teardown(pc) && CallerOk(b, t, pc) && !Orders(b, pc)
    requires BoardTold(cfg, b, ended) && ThreadTold(cfg, b, ended, pc)
    ensures var (b', pc') := MoveCaller(cfg, b, t, pc, ok); ThreadTold(cfg, b', ended, pc')
  {
    if pc.StartEntry? && b.sh.phase.Idle? {
      assert cfg.components[..0] == [];
    }
  }

  // ---------------------------------------------------------------- what others leave alone

  /** What has happened stays so. */
  predicate Grown(b: Board, b': Board) {
    && (b.tally.asked ==> b'.tally.asked) && (b.tally.ran ==> b'.tally.ran) && (b.canceled ==> b'.canceled)
    && (b'.sh.phase.Starting? ==> b.sh.phase.Starting? || b.sh.phase.Idle?)
    && (forall e :: e in b.log ==> e in b'.log)
    && (b.sh.phase.Stopped? ==> b'.sh.phase.Stopped? && b'.sh.startErr == b.sh.startErr)
  }

  /** No component is started and the process does not come to run. */
  predicate Still(b: Board, b': Board) {
    b'.tally.successes == b.tally.successes && b'.tally.ran == b.tally.ran
  }

  lemma StaysWhy(cfg: Config, b: Board, b': Board, ended: bool, ended': bool, cause: Cause)
    requires Why(cfg, b, ended, cause) && Grown(b, b') && Still(b, b') && (ended ==> ended')
    ensures Why(cfg, b', ended', cause)
  {
    if cause.Requested? {
      var i :| 0 <= i <= |cfg.components| && Reached(cfg, b, i);
      assert Reached(cfg, b', i);
    }
  }

  lemma StaysExplained(cfg: Config, b: Board, b': Board, ended: bool, ended': bool)
    requires Explained(cfg, b, ended) && Grown(b, b') && Still(b, b') && (ended ==> ended')
    requires b'.tally.faults == b.tally.faults && b'.sh.startErr == b.sh.startErr
    ensures Explained(cfg, b', ended')
  {
    var cause :| Why(cfg, b, ended, cause) && b.sh.startErr == Terminal(cause, b.tally.faults);
    StaysWhy(cfg, b, b', ended, ended', cause);
  }

  lemma OtherStaysTold(cfg: Config, b: Board, b': Board, ended: bool, ended': bool, q: Pc)
    requires ThreadTold(cfg, b, ended, q) && Grown(b, b') && (Works(q) ==> Still(b, b')) && (ended ==> ended')
    requires q.ShutWaiting? && b'.sh.phase.Starting? ==> b.sh.phase.Starting?
    ensures ThreadTold(cfg, b', ended', q)
  {
    if q.Unwinding? || Teardown(q) {
      StaysWhy(cfg, b, b', ended, ended', q.cause);
    }
  }

  lemma StartupGrows(cfg: Config, b: Board, pc: Pc, ok: bool)
    requires Startup(pc) && b.sh.phase.Starting?
    ensures Grown(b, MoveStartup(cfg, b, pc, ok).0)
  {
  }

  lemma TeardownGrows(cfg: Config, b: Board, pc: Pc, ok: bool)
    requires Teardown(pc) && b.sh.phase.Stopping?
    ensures Grown(b, MoveTeardown(cfg, b, pc, ok).0) && Still(b, MoveTeardown(cfg, b, pc, ok).0)
  {
    if pc.Draining? && pc.todo != [] {
      EventGrows(b, StopRan(pc.todo[|pc.todo| - 1], ok));
    } else if pc.Cleaning? && pc.k > 0 {
      EventGrows(b, CleanupRan(pc.k - 1, ok));
    }
  }

  lemma EventGrows(b: Board, e: Event)
    requires b.sh.phase.Stopping? && (e.StopRan? || e.CleanupRan?)
    ensures Grown(b, Log(b, e)) && Still(b, Log(b, e))
  {
  }

  lemma CallerGrows(cfg: Config, b: Board, t: nat, pc: Pc, ok: bool)
    requires !Startup(pc) && !Teardown(pc)
    ensures Grown(b, MoveCaller(cfg, b, t, pc, ok).0) && Still(b, MoveCaller(cfg, b, t, pc, ok).0)
  {
  }

  lemma MoveGrows(cfg: Config, b: Board, t: nat, pc: Pc, ok: bool)
    requires ThreadOk(cfg, b, t, pc)
    ensures var b' := Move(cfg, b, t, pc, ok).0; Grown(b, b') && (!Startup(pc) ==> Still(b, b'))
  {
    if Startup(pc) {
      StartupGrows(cfg, b, pc, ok);
    } else if Teardown(pc) {
      TeardownGrows(cfg, b, pc, ok);
    } else {
      CallerGrows(cfg, b, t, pc, ok);
    }
  }

  // ---------------------------------------------------------------- whole steps

  lemma OwnTells(cfg: Config, b: Board, t: nat, pc: Pc, ok: bool, ended: bool)
    requires BoardOk(cfg, b) && ThreadOk(cfg, b, t, pc) && !Orders(b, pc)
    requires BoardTold(cfg, b, ended) && ThreadTold(cfg, b, ended, pc)
    ensures KeptTold(cfg, ended, Move(cfg, b, t, pc, ok))
  {
    if Teardown(pc) {
      TeardownTells(cfg, b, t, pc, ok, ended);
    } else if !Startup(pc) {
      CallerTells(cfg, b, t, pc, ok, ended);
    } else if pc.Head? {
      HeadTells(cfg, b, t, pc, ok, ended);
    } else if pc.Gate? {
      GateTells(cfg, b, t, pc, ok, ended);
    } else if pc.Calling? {
      CallingTells(cfg, b, t, pc, ok, ended);
    } else if pc.Unwinding? {
      UnwindingTells(cfg, b, t, pc, ok, ended);
    } else {
      SettledTells(cfg, b, t, pc, ok, ended);
    }
  }

  /** A move closes a channel only as its goroutine's last step. */
  predicate PartsFrom(b: Board, t: nat, pc: Pc, r: (Board, Pc)) {
    && (pc.StartReturned? || pc.Finished? ==> r.1 == pc)
    && |b.channels| <= |r.0.channels| && |b.holder| <= |r.0.holder| && b.holder == r.0.holder[..|b.holder|]
    && (forall c :: 0 <= c < |r.0.channels| && c < |b.channels| && r.0.channels[c] > 0 && b.channels[c] == 0 ==>
          c < |b.holder| && b.holder[c] == t && (r.1.StartReturned? || r.1.Finished?))
    && (forall c :: |b.channels| <= c < |r.0.channels| ==> r.0.channels[c] == 0)
  }

  lemma MoveParts(cfg: Config, b: Board, t: nat, pc: Pc, ok: bool)
    requires ThreadOk(cfg, b, t, pc) && !Orders(b, pc)
    ensures PartsFrom(b, t, pc, Move(cfg, b, t, pc, ok))
  {
    if Startup(pc) {
      StartupParts(cfg, b, t, pc, ok);
    } else if Teardown(pc) {
      TeardownParts(cfg, b, t, pc, ok);
    } else {
      CallerParts(cfg, b, t, pc, ok);
    }
  }

  lemma StartupParts(cfg: Config, b: Board, t: nat, pc: Pc, ok: bool)
    requires Startup(pc)
    ensures PartsFrom(b, t, pc, MoveStartup(cfg, b, pc, ok))
  {
  }

  lemma TeardownParts(cfg: Config, b: Board, t: nat, pc: Pc, ok: bool)
    requires Teardown(pc) && Owns(b, t, pc.c)
    ensures PartsFrom(b, t, pc, MoveTeardown(cfg, b, pc, ok))
  {
  }

  lemma CallerParts(cfg: Config, b: Board, t: nat, pc: Pc, ok: bool)
    requires !Startup(pc) && !Teardown(pc) && (pc.Closing? ==> Owns(b, t, pc.c)) && !Orders(b, pc)
    ensures PartsFrom(b, t, pc, MoveCaller(cfg, b, t, pc, ok))
  {
  }

  lemma MoveKeepsParted(s: State, t: nat, r: (Board, Pc))
    requires Parted(s) && t in s.threads && PartsFrom(s.board, t, s.threads[t], r)
    requires |s.board.channels| == |s.board.holder|
    ensures Parted(State(r.0, s.threads[t := r.1]))
  {
    var s' := State(r.0, s.threads[t := r.1]);
    forall c | 0 <= c < |r.0.channels| && c < |r.0.holder| && r.0.channels[c] > 0
      ensures r.0.holder[c] in s'.threads
      ensures s'.threads[r.0.holder[c]].StartReturned? || s'.threads[r.0.holder[c]].Finished?
    {
      assert c < |s.board.channels| && r.0.holder[c] == s.board.holder[c];
    }
  }

  lemma AllOthersTold(cfg: Config, s: State, t: nat, ok: bool, ended: bool)
    requires Inv(cfg, s) && Told(cfg, s, ended) && t in s.threads && !Orders(s.board, s.threads[t])
    ensures var b' := Move(cfg, s.board, t, s.threads[t], ok).0;
            forall u :: u in s.threads && u != t ==> ThreadTold(cfg, b', ended, s.threads[u])
  {
    var b, pc := s.board, s.threads[t];
    var b' := Move(cfg, b, t, pc, ok).0;
    assert ThreadOk(cfg, b, t, pc);
    MoveGrows(cfg, b, t, pc, ok);
    forall u | u in s.threads && u != t
      ensures ThreadTold(cfg, b', ended, s.threads[u])
    {
      var q := s.threads[u];
      assert ThreadOk(cfg, b, u, q) && ThreadTold(cfg, b, ended, q);
      if Startup(pc) && Works(q) {
        OneWorker(cfg, b, t, pc, u, q);
      }
      OtherStaysTold(cfg, b, b', ended, ended, q);
    }
  }

  lemma MoveTells(cfg: Config, s: State, t: nat, ok: bool, ended: bool)
    requires Inv(cfg, s) && Told(cfg, s, ended) && t in s.threads && !Orders(s.board, s.threads[t])
    ensures var (b', pc') := Move(cfg, s.board, t, s.threads[t], ok);
            Told(cfg, State(b', s.threads[t := pc']), ended)
  {
    var b, pc := s.board, s.threads[t];
    assert ThreadOk(cfg, b, t, pc) && ThreadTold(cfg, b, ended, pc);
    OwnTells(cfg, b, t, pc, ok, ended);
    AllOthersTold(cfg, s, t, ok, ended);
    MoveParts(cfg, b, t, pc, ok);
    MoveKeepsParted(s, t, Move(cfg, b, t, pc, ok));
  }

  lemma OrderGrows(cfg: Config, b: Board, g: nat, ended: bool)
    requires BoardOk(cfg, b) && (b.sh.phase.Idle? || b.sh.phase.Running?) && BoardTold(cfg, b, ended)
    ensures var (b', pc') := Order(b, g);
            && Grown(b, b') && Still(b, b') && BoardTold(cfg, b', ended) && ThreadTold(cfg, b', ended, pc')
            && b'.channels == b.channels + [0] && b'.holder == b.holder + [g]
  {
  }

  lemma OrderLeavesTold(cfg: Config, s: State, t: nat, g: nat, ended: bool)
    requires Inv(cfg, s) && Told(cfg, s, ended) && t in s.threads && g !in s.threads && Orders(s.board, s.threads[t])
    ensures var (b', pc') := Order(s.board, g);
            var threads := s.threads[g := pc'][t := ShutWaiting(Some(pc'.c))];
            forall u :: u in threads ==> ThreadTold(cfg, b', ended, threads[u])
  {
    var (b', pc') := Order(s.board, g);
    var threads := s.threads[g := pc'][t := ShutWaiting(Some(pc'.c))];
    OrderGrows(cfg, s.board, g, ended);
    forall u | u in threads
      ensures ThreadTold(cfg, b', ended, threads[u])
    {
      if u != t && u != g {
        OtherStaysTold(cfg, s.board, b', ended, ended, s.threads[u]);
      }
    }
  }

  lemma OrderTells(cfg: Config, s: State, t: nat, g: nat, ended: bool)
    requires Inv(cfg, s) && Told(cfg, s, ended) && t in s.threads && g !in s.threads && Orders(s.board, s.threads[t])
    ensures var (b', pc') := Order(s.board, g);
            Told(cfg, State(b', s.threads[g := pc'][t := ShutWaiting(Some(pc'.c))]), ended)
  {
    OrderGrows(cfg, s.board, g, ended);
    OrderLeavesTold(cfg, s, t, g, ended);
  }

  lemma CallTells(cfg: Config, s: State, t: nat, pc: Pc, ended: bool)
    requires Told(cfg, s, ended) && t !in s.threads && (pc.StartEntry? || pc.ShutEntry?)
    ensures Told(cfg, State(s.board, s.threads[t := pc]), ended)
  {
  }

  lemma EndTells(cfg: Config, s: State, ended: bool)
    requires Told(cfg, s, ended)
    ensures Told(cfg, s.(board := s.board.(canceled := true)), true)
  {
    var b, b' := s.board, s.board.(canceled := true);
    if b.sh.phase.Stopped? {
      StaysExplained(cfg, b, b', ended, true);
    }
    forall u | u in s.threads
      ensures ThreadTold(cfg, b', true, s.threads[u])
    {
      OtherStaysTold(cfg, b, b', ended, true, s.threads[u]);
    }
  }

  lemma StepTells(cfg: Config, s: State, a: Action, ended: bool)
    requires Inv(cfg, s) && Told(cfg, s, ended)
    ensures Told(cfg, Next(cfg, s, a), ended || a.EndContext?)
  {
    match a
    case CallStart(t) => if t !in s.threads { CallTells(cfg, s, t, StartEntry, ended); }
    case CallShutdown(t) => if t !in s.threads { CallTells(cfg, s, t, ShutEntry, ended); }
    case EndContext => EndTells(cfg, s, ended);
    case Advance(t, ok, g) =>
      if t in s.threads {
        if !Orders(s.board, s.threads[t]) {
          MoveTells(cfg, s, t, ok, ended);
        } else if g !in s.threads {
          OrderTells(cfg, s, t, g, ended);
        }
      }
  }

  /** The startup context ended by itself during the run. */
  predicate Ended(actions: seq<Action>) {
    actions != [] && (Ended(actions[..|actions| - 1]) || actions[|actions| - 1].EndContext?)
  }

  lemma {:induction false} EveryRunTells(cfg: Config, actions: seq<Action>)
    ensures Told(cfg, Run(cfg, actions), Ended(actions))
  {
    if actions != [] {
      var before := actions[..|actions| - 1];
      EveryRunTells(cfg, before);
      EveryRun(cfg, before);
      StepTells(cfg, Run(cfg, before), actions[|actions| - 1], Ended(before));
    }
  }

  // ---------------------------------------------------------------- reasons

  /**
   * A stopped process has a reason in its past, and its terminal error is the reason's own error
   * followed by everything the teardown reported; a failed component is named, with all the
   * components before it started and no other.
   */
  lemma StoppedHasReason(cfg: Config, actions: seq<Action>) returns (cause: Cause)
    requires Run(cfg, actions).board.sh.phase.Stopped?
    ensures var b := Run(cfg, actions).board;
            && Why(cfg, b, Ended(actions), cause) && b.sh.startErr == Terminal(cause, Read(b.log).faults)
            && NoFlags(b.sh) && !b.sh.startCancel
  {
    EveryRunTells(cfg, actions);
    EveryTally(cfg, actions);
    var b := Run(cfg, actions).board;
    cause :| Why(cfg, b, Ended(actions), cause) && b.sh.startErr == Terminal(cause, b.tally.faults);
  }

  /** Whoever tears down has such a reason from the moment the decision is made, and has cut the startup context off. */
  lemma TeardownHasReason(cfg: Config, actions: seq<Action>, t: nat)
    requires t in Run(cfg, actions).threads
    requires Run(cfg, actions).threads[t].Unwinding? || Teardown(Run(cfg, actions).threads[t])
    ensures var b, pc := Run(cfg, actions).board, Run(cfg, actions).threads[t];
            Why(cfg, b, Ended(actions), pc.cause) && (Teardown(pc) ==> Cut(b, pc.cause))
  {
    EveryRunTells(cfg, actions);
    assert ThreadTold(cfg, Run(cfg, actions).board, Ended(actions), Run(cfg, actions).threads[t]);
  }

  /**
   * A Shutdown that returns other than by its own context ending returns after the whole teardown,
   * with every error of it. A Start that returns nil returns after the process ran with every
   * component started; any other answer of a Start comes after the whole teardown and is the
   * terminal error, that of a reason followed by every error of the teardown.
   */
  lemma AnswersAreTerminal(cfg: Config, actions: seq<Action>, t: nat)
    requires t in Run(cfg, actions).threads
    ensures var s := Run(cfg, actions); var pc, b, y := s.threads[t], s.board, Read(s.board.log);
            && (pc.ShutReturned? ==>
                  b.sh.phase.Stopped? && y.stops == Reversed(y.successes) && pc.err == y.faults)
            && (pc.StartReturned? && pc.err == [] ==> y.ran && y.successes == Indexes(cfg.components))
            && (pc.StartReturned? && pc.err != [] ==>
                  && b.sh.phase.Stopped? && y.stops == Reversed(y.successes)
                  && exists cause :: Why(cfg, b, Ended(actions), cause) && pc.err == Terminal(cause, y.faults))
  {
    EveryRun(cfg, actions);
    EveryRunTells(cfg, actions);
    EveryTally(cfg, actions);
    var s := Run(cfg, actions);
    assert ThreadOk(cfg, s.board, t, s.threads[t]) && ThreadTold(cfg, s.board, Ended(actions), s.threads[t]);
    assert cfg.components[..|cfg.components|] == cfg.components;
    if s.threads[t].StartReturned? && s.threads[t].err != [] {
      var cause := StoppedHasReason(cfg, actions);
    }
  }

  /** A Shutdown that waits for a startup has cut the startup context off. */
  lemma ShutdownCutsStartup(cfg: Config, actions: seq<Action>, t: nat)
    requires t in Run(cfg, actions).threads && Run(cfg, actions).threads[t].ShutWaiting?
    ensures Run(cfg, actions).board.sh.phase.Starting? ==> Run(cfg, actions).board.canceled
  {
    EveryRunTells(cfg, actions);
    assert ThreadTold(cfg, Run(cfg, actions).board, Ended(actions), Run(cfg, actions).threads[t]);
  }

  /** A running process has started every component there is. */
  lemma RunningHasStartedAll(cfg: Config, actions: seq<Action>)
    requires Run(cfg, actions).board.sh.phase.Running?
    ensures Read(Run(cfg, actions).board.log).successes == Indexes(cfg.components)
  {
    EveryRun(cfg, actions);
    EveryRunTells(cfg, actions);
    EveryTally(cfg, actions);
    assert cfg.components[..|cfg.components|] == cfg.components;
  }

  // ---------------------------------------------------------------- undisturbed startups

  /** Nothing happened that could be a reason: no failing Start, no stop request, no ended context. */
  predicate Undisturbed(cfg: Config, actions: seq<Action>) {
    var b := Run(cfg, actions).board;
    !Ended(actions) && !b.tally.asked && forall i :: 0 <= i < |b.log| ==> !b.log[i].StartErred?
  }

  lemma NoReason(cfg: Config, b: Board, ended: bool, cause: Cause)
    requires Why(cfg, b, ended, cause) && !ended && !b.tally.asked
    ensures exists i :: 0 <= i < |b.log| && b.log[i].StartErred?
  {
  }

  lemma StoppingHasTeardown(cfg: Config, s: State) returns (t: nat)
    requires Inv(cfg, s) && s.board.sh.phase.Stopping?
    ensures t in s.threads && Teardown(s.threads[t])
  {
    var c := |s.board.channels| - 1;
    t := s.board.holder[c];
    var pc := s.threads[t];
    assert Holds(pc) && pc.c == c && ThreadOk(cfg, s.board, t, pc);
  }

  /** Without a reason a process is never torn down. */
  lemma UndisturbedNeverStops(cfg: Config, actions: seq<Action>)
    requires Undisturbed(cfg, actions)
    ensures var phase := Run(cfg, actions).board.sh.phase; phase.Idle? || phase.Starting? || phase.Running?
  {
    var s := Run(cfg, actions);
    EveryRun(cfg, actions);
    if s.board.sh.phase.Stopping? {
      var t := StoppingHasTeardown(cfg, s);
      TeardownHasReason(cfg, actions, t);
      NoReason(cfg, s.board, Ended(actions), s.threads[t].cause);
    } else if s.board.sh.phase.Stopped? {
      var cause := StoppedHasReason(cfg, actions);
      NoReason(cfg, s.board, Ended(actions), cause);
    }
  }

  /**
   * A startup succeeds. In any continuation in which its owner moves a computed number of times
   * and nothing happens that could be a reason, with anything else interleaved, the process runs
   * with every component started and the owner's Start has returned nil.
   */
  lemma StartSucceeds(cfg: Config, actions: seq<Action>, more: seq<Action>, c: nat)
    requires c < |Run(cfg, actions).board.channels| && c < |Run(cfg, actions).board.holder|
    requires Moves(more, Run(cfg, actions).board.holder[c]) >= Needs(cfg, Run(cfg, actions), c)
    requires Undisturbed(cfg, actions + more)
    ensures var s, t := Run(cfg, actions + more), Run(cfg, actions).board.holder[c];
            && s.board.sh.phase.Running? && Read(s.board.log).successes == Indexes(cfg.components)
            && t in s.threads && s.threads[t] == StartReturned([])
  {
    var all := actions + more;
    var s := Run(cfg, all);
    ChannelCloses(cfg, actions, more, c);
    HolderStays(cfg, actions, more, c);
    EveryRun(cfg, all);
    EveryRunTells(cfg, all);
    UndisturbedNeverStops(cfg, all);
    RunningHasStartedAll(cfg, all);
    var t := s.board.holder[c];
    assert ThreadTold(cfg, s.board, Ended(all), s.threads[t]);
  }

  lemma {:induction false} HolderStays(cfg: Config, actions: seq<Action>, more: seq<Action>, c: nat)
    requires c < |Run(cfg, actions).board.channels|
    ensures |Run(cfg, actions).board.holder| == |Run(cfg, actions).board.channels|
    ensures var b, b' := Run(cfg, actions).board, Run(cfg, actions + more).board;
            c < |b'.channels| == |b'.holder| && b'.holder[c] == b.holder[c]
    decreases |more|
  {
    EveryRun(cfg, actions);
    EveryRun(cfg, actions + more);
    if more == [] {
      assert actions + more == actions;
    } else {
      RunMore(cfg, actions, more[0], more[1..]);
      assert [more[0]] + more[1..] == more;
      StepApproaches(cfg, Run(cfg, actions), c, more[0]);
      HolderStays(cfg, actions + [more[0]], more[1..], c);
    }
  }

  /** Only a Shutdown on its way in asks for a stop, and no goroutine turns into one. */
  predicate Asks(b: Board, pc: Pc, r: (Board, Pc)) {
    pc.ShutEntry? || (r.0.tally.asked == b.tally.asked && !r.1.ShutEntry?)
  }

  lemma StartupAsks(cfg: Config, b: Board, pc: Pc, ok: bool)
    requires Startup(pc)
    ensures Asks(b, pc, MoveStartup(cfg, b, pc, ok))
  {
  }

  lemma TeardownAsks(cfg: Config, b: Board, pc: Pc, ok: bool)
    requires Teardown(pc)
    ensures Asks(b, pc, MoveTeardown(cfg, b, pc, ok))
  {
  }

  lemma CallerAsks(cfg: Config, b: Board, t: nat, pc: Pc, ok: bool)
    requires !Startup(pc) && !Teardown(pc)
    ensures Asks(b, pc, MoveCaller(cfg, b, t, pc, ok))
  {
  }

  predicate NoneShuts(s: State) {
    !s.board.tally.asked && forall t :: t in s.threads ==> !s.threads[t].ShutEntry?
  }

  lemma StepStaysUnasked(cfg: Config, s: State, a: Action)
    requires NoneShuts(s) && !a.CallShutdown?
    ensures NoneShuts(Next(cfg, s, a))
  {
    if a.Advance? && a.t in s.threads {
      var pc := s.threads[a.t];
      if Startup(pc) {
        StartupAsks(cfg, s.board, pc, a.ok);
      } else if Teardown(pc) {
        TeardownAsks(cfg, s.board, pc, a.ok);
      } else {
        CallerAsks(cfg, s.board, a.t, pc, a.ok);
      }
    }
  }

  /** Without a call to Shutdown no stop is ever requested. */
  lemma {:induction false} UnaskedWithoutShutdown(cfg: Config, actions: seq<Action>)
    requires forall i :: 0 <= i < |actions| ==> !actions[i].CallShutdown?
    ensures NoneShuts(Run(cfg, actions))
  {
    if actions != [] {
      UnaskedWithoutShutdown(cfg, actions[..|actions| - 1]);
      StepStaysUnasked(cfg, Run(cfg, actions[..|actions| - 1]), actions[|actions| - 1]);
    }
  }

  // ---------------------------------------------------------------- stop requests that are seen

  /** The goroutine has yet to look at the stop request, has seen it, or its component failed first. */
  predicate Heeds(b: Board, pc: Pc) {
    && b.tally.asked
    && match pc
       case Head(_, _) => true
       case Gate(_, _, stop) => stop
       case Calling(_, _) => true
       case Settled(_, _) => true
       case PostStart(_, _, stop) => stop
       case Unwinding(_, cause) => cause.Requested? || cause.Failed?
       case Draining(_, cause, _, _) => cause.Requested? || cause.Failed?
       case Cleaning(_, cause, _, _, _) => cause.Requested? || cause.Failed?
       case Tallying(_, cause, _) => cause.Requested? || cause.Failed?
       case Sealing(_, cause, _, _) => cause.Requested? || cause.Failed?
       case StartReturned(err) =>
         && b.sh.phase.Stopped? && err != []
         && (err[0] == Canceled || (err[0].StartFault? && StartErred(err[0].component) in b.log))
       case _ => false
  }

  predicate SameStarts(b: Board, b': Board) {
    b'.tally.begun == b.tally.begun && b'.tally.late == b.tally.late
  }

  lemma StartupHeeds(cfg: Config, b: Board, t: nat, pc: Pc, ok: bool)
    requires Startup(pc) && StartupOk(cfg, b, t, pc) && LogOk(b) && Heeds(b, pc)
    ensures var (b', pc') := MoveStartup(cfg, b, pc, ok); Heeds(b', pc') && SameStarts(b, b')
  {
  }

  lemma TearsOnHeeding(cfg: Config, b: Board, pc: Pc, ok: bool)
    requires Teardown(pc) && !pc.Sealing? && Heeds(b, pc)
    ensures var (b', pc') := MoveTeardown(cfg, b, pc, ok); Heeds(b', pc') && SameStarts(b, b')
  {
  }

  lemma SealHeeds(cfg: Config, b: Board, t: nat, pc: Pc, ok: bool, ended: bool)
    requires BoardOk(cfg, b) && pc.Sealing? && TeardownOk(cfg, b, t, pc) && Heeds(b, pc)
    requires BoardTold(cfg, b, ended) && Why(cfg, b, ended, pc.cause)
    ensures var (b', pc') := MoveTeardown(cfg, b, pc, ok); Heeds(b', pc') && SameStarts(b, b')
  {
    SealRecords(cfg, b, t, pc, ok, ended);
    assert Terminal(pc.cause, b.tally.faults)[0] == pc.cause.Errors()[0];
  }

  lemma TeardownHeeds(cfg: Config, b: Board, t: nat, pc: Pc, ok: bool, ended: bool)
    requires BoardOk(cfg, b) && Teardown(pc) && TeardownOk(cfg, b, t, pc) && Heeds(b, pc)
    requires BoardTold(cfg, b, ended) && Why(cfg, b, ended, pc.cause)
    ensures var (b', pc') := MoveTeardown(cfg, b, pc, ok); Heeds(b', pc') && SameStarts(b, b')
  {
    if pc.Sealing? {
      SealHeeds(cfg, b, t, pc, ok, ended);
    } else {
      TearsOnHeeding(cfg, b, pc, ok);
    }
  }

  lemma OwnHeeds(cfg: Config, s: State, t: nat, ok: bool, ended: bool)
    requires Inv(cfg, s) && Told(cfg, s, ended) && t in s.threads && Heeds(s.board, s.threads[t])
    ensures var (b', pc') := Move(cfg, s.board, t, s.threads[t], ok); Heeds(b', pc') && SameStarts(s.board, b')
  {
    var pc := s.threads[t];
    assert ThreadOk(cfg, s.board, t, pc) && ThreadTold(cfg, s.board, ended, pc);
    if Startup(pc) {
      StartupHeeds(cfg, s.board, t, pc, ok);
    } else if Teardown(pc) {
      TeardownHeeds(cfg, s.board, t, pc, ok, ended);
    }
  }

  lemma OtherHeeds(cfg: Config, s: State, t: nat, u: nat, ok: bool)
    requires Inv(cfg, s) && t in s.threads && u in s.threads && t != u && Heeds(s.board, s.threads[t])
    requires !Orders(s.board, s.threads[u])
    ensures var b' := Move(cfg, s.board, u, s.threads[u], ok).0;
            Heeds(b', s.threads[t]) && SameStarts(s.board, b')
  {
    var b, pc, q := s.board, s.threads[t], s.threads[u];
    assert ThreadOk(cfg, b, t, pc) && ThreadOk(cfg, b, u, q);
    if Works(q) && Works(pc) {
      OneWorker(cfg, b, t, pc, u, q);
    }
    MoveGrows(cfg, b, u, q, ok);
    if !Startup(q) {
      OtherStarts(cfg, b, u, q, ok);
    }
  }

  lemma OtherStarts(cfg: Config, b: Board, u: nat, q: Pc, ok: bool)
    requires !Startup(q)
    ensures SameStarts(b, Move(cfg, b, u, q, ok).0)
  {
    if Teardown(q) {
      TeardownStarts(cfg, b, q, ok);
    }
  }

  lemma TeardownStarts(cfg: Config, b: Board, q: Pc, ok: bool)
    requires Teardown(q)
    ensures SameStarts(b, MoveTeardown(cfg, b, q, ok).0)
  {
  }

  /** While it is starting, stopping or stopped nobody finds the process idle or running. */
  lemma NobodyOrders(cfg: Config, s: State, t: nat)
    requires Inv(cfg, s) && t in s.threads && Heeds(s.board, s.threads[t])
    ensures !s.board.sh.phase.Idle? && !s.board.sh.phase.Running?
  {
    assert ThreadOk(cfg, s.board, t, s.threads[t]);
  }

  lemma StepHeeds(cfg: Config, s: State, a: Action, t: nat, ended: bool)
    requires Inv(cfg, s) && Told(cfg, s, ended) && t in s.threads && Heeds(s.board, s.threads[t])
    ensures var s' := Next(cfg, s, a);
            t in s'.threads && Heeds(s'.board, s'.threads[t]) && SameStarts(s.board, s'.board)
  {
    NobodyOrders(cfg, s, t);
    if a.Advance? && a.t in s.threads {
      MoveHeeds(cfg, s, a.t, a.ok, t, ended);
    }
  }

  lemma MoveHeeds(cfg: Config, s: State, u: nat, ok: bool, t: nat, ended: bool)
    requires Inv(cfg, s) && Told(cfg, s, ended) && t in s.threads && Heeds(s.board, s.threads[t])
    requires u in s.threads && !Orders(s.board, s.threads[u])
    ensures var (b', pc') := Move(cfg, s.board, u, s.threads[u], ok);
            Heeds(b', s.threads[u := pc'][t]) && SameStarts(s.board, b')
  {
    if u == t {
      OwnHeeds(cfg, s, t, ok, ended);
    } else {
      OtherHeeds(cfg, s, t, u, ok);
    }
  }

  /**
   * A stop request is heeded. Once it has been made while the startup owner has yet to look at the
   * request, no further component is started whatever is interleaved, and the owner's Start, when
   * it returns, was cancelled, unless the component just being started failed.
   */
  lemma {:induction false} StopIsHeeded(cfg: Config, actions: seq<Action>, more: seq<Action>, t: nat)
    requires t in Run(cfg, actions).threads && Heeds(Run(cfg, actions).board, Run(cfg, actions).threads[t])
    ensures var s, s' := Run(cfg, actions), Run(cfg, actions + more);
            && t in s'.threads && Heeds(s'.board, s'.threads[t])
            && Read(s'.board.log).begun == Read(s.board.log).begun
            && Read(s'.board.log).late == Read(s.board.log).late
    decreases |more|
  {
    EveryTally(cfg, actions);
    if more == [] {
      assert actions + more == actions;
    } else {
      EveryRun(cfg, actions);
      EveryRunTells(cfg, actions);
      RunMore(cfg, actions, more[0], more[1..]);
      assert [more[0]] + more[1..] == more;
      StepHeeds(cfg, Run(cfg, actions), more[0], t, Ended(actions));
      EveryTally(cfg, actions + [more[0]]);
      StopIsHeeded(cfg, actions + [more[0]], more[1..], t);
    }
  }

  // ---------------------------------------------------------------- ended contexts that are seen

  /** The startup context has ended while slot `i` was at hand: that slot, or a stop request, is the reason. */
  predicate Winds(b: Board, pc: Pc, i: nat) {
    var causes := [Requested, Failed(i), Aborted(i)];
    && b.canceled
    && match pc
       case Head(_, k) => k == i
       case Gate(_, k, _) => k == i
       case Calling(_, k) => k == i
       case Settled(_, k) => k == i
       case PostStart(_, k, _) => k == i
       case Unwinding(_, cause) => cause in causes
       case Draining(_, cause, _, _) => cause in causes
       case Cleaning(_, cause, _, _, _) => cause in causes
       case Tallying(_, cause, _) => cause in causes
       case Sealing(_, cause, _, _) => cause in causes
       case StartReturned(err) => b.sh.phase.Stopped? && err != [] && err[0] in [Canceled, StartFault(i)]
       case _ => false
  }

  /** No Start begins and the process does not come to run. */
  predicate SameProgress(b: Board, b': Board) {
    b'.tally.begun == b.tally.begun && b'.tally.ran == b.tally.ran
  }

  lemma StartupWinds(cfg: Config, b: Board, t: nat, pc: Pc, ok: bool, i: nat)
    requires Startup(pc) && StartupOk(cfg, b, t, pc) && Winds(b, pc, i)
    requires pc.Head? ==> i <= |cfg.components|
    ensures var (b', pc') := MoveStartup(cfg, b, pc, ok); Winds(b', pc', i) && SameProgress(b, b')
  {
  }

  lemma TearsOnWinding(cfg: Config, b: Board, pc: Pc, ok: bool, i: nat)
    requires Teardown(pc) && !pc.Sealing? && Winds(b, pc, i)
    ensures var (b', pc') := MoveTeardown(cfg, b, pc, ok); Winds(b', pc', i) && SameProgress(b, b')
  {
  }

  lemma SealWinds(cfg: Config, b: Board, t: nat, pc: Pc, ok: bool, i: nat, ended: bool)
    requires BoardOk(cfg, b) && pc.Sealing? && TeardownOk(cfg, b, t, pc) && Winds(b, pc, i)
    requires BoardTold(cfg, b, ended) && Why(cfg, b, ended, pc.cause)
    ensures var (b', pc') := MoveTeardown(cfg, b, pc, ok); Winds(b', pc', i) && SameProgress(b, b')
  {
    SealRecords(cfg, b, t, pc, ok, ended);
    assert Terminal(pc.cause, b.tally.faults)[0] == pc.cause.Errors()[0];
  }

  lemma OwnWinds(cfg: Config, s: State, t: nat, ok: bool, i: nat, ended: bool)
    requires Inv(cfg, s) && Told(cfg, s, ended) && t in s.threads && Winds(s.board, s.threads[t], i)
    ensures var (b', pc') := Move(cfg, s.board, t, s.threads[t], ok); Winds(b', pc', i) && SameProgress(s.board, b')
  {
    var pc := s.threads[t];
    assert ThreadOk(cfg, s.board, t, pc) && ThreadTold(cfg, s.board, ended, pc);
    if Startup(pc) {
      StartupWinds(cfg, s.board, t, pc, ok, i);
    } else if pc.Sealing? {
      SealWinds(cfg, s.board, t, pc, ok, i, ended);
    } else if Teardown(pc) {
      TearsOnWinding(cfg, s.board, pc, ok, i);
    }
  }

  lemma OtherWinds(cfg: Config, s: State, t: nat, u: nat, ok: bool, i: nat)
    requires Inv(cfg, s) && t in s.threads && u in s.threads && t != u && Winds(s.board, s.threads[t], i)
    requires !Orders(s.board, s.threads[u])
    ensures var b' := Move(cfg, s.board, u, s.threads[u], ok).0;
            Winds(b', s.threads[t], i) && SameProgress(s.board, b')
  {
    var b, pc, q := s.board, s.threads[t], s.threads[u];
    assert ThreadOk(cfg, b, t, pc) && ThreadOk(cfg, b, u, q);
    if Works(q) && Works(pc) {
      OneWorker(cfg, b, t, pc, u, q);
    }
    MoveGrows(cfg, b, u, q, ok);
    if !Startup(q) {
      OtherStarts(cfg, b, u, q, ok);
    }
  }

  lemma NobodyOrdersNow(cfg: Config, s: State, t: nat, i: nat)
    requires Inv(cfg, s) && t in s.threads && Winds(s.board, s.threads[t], i)
    ensures !s.board.sh.phase.Idle? && !s.board.sh.phase.Running?
  {
    assert ThreadOk(cfg, s.board, t, s.threads[t]);
  }

  lemma MoveWinds(cfg: Config, s: State, u: nat, ok: bool, t: nat, i: nat, ended: bool)
    requires Inv(cfg, s) && Told(cfg, s, ended) && t in s.threads && Winds(s.board, s.threads[t], i)
    requires u in s.threads && !Orders(s.board, s.threads[u])
    ensures var (b', pc') := Move(cfg, s.board, u, s.threads[u], ok);
            Winds(b', s.threads[u := pc'][t], i) && SameProgress(s.board, b')
  {
    if u == t {
      OwnWinds(cfg, s, t, ok, i, ended);
    } else {
      OtherWinds(cfg, s, t, u, ok, i);
    }
  }

  lemma StepWinds(cfg: Config, s: State, a: Action, t: nat, i: nat, ended: bool)
    requires Inv(cfg, s) && Told(cfg, s, ended) && t in s.threads && Winds(s.board, s.threads[t], i)
    ensures var s' := Next(cfg, s, a);
            t in s'.threads && Winds(s'.board, s'.threads[t], i) && SameProgress(s.board, s'.board)
  {
    if !a.Advance? {
      QuietWinds(cfg, s, a, t, i);
    } else if a.t in s.threads {
      NobodyOrdersNow(cfg, s, t, i);
      MoveWinds(cfg, s, a.t, a.ok, t, i, ended);
    }
  }

  lemma QuietWinds(cfg: Config, s: State, a: Action, t: nat, i: nat)
    requires !a.Advance? && t in s.threads && Winds(s.board, s.threads[t], i)
    ensures var s' := Next(cfg, s, a);
            t in s'.threads && Winds(s'.board, s'.threads[t], i) && SameProgress(s.board, s'.board)
  {
  }

  /**
   * The end of the startup context is heeded. Once it has ended while the owner was at slot `i`, no
   * Start begins and the process does not come to run, whatever is interleaved, and the owner's Start,
   * when it returns, names slot `i`, unless it was cancelled by a stop request.
   */
  lemma {:induction false} EndIsHeeded(cfg: Config, actions: seq<Action>, more: seq<Action>, t: nat, i: nat)
    requires t in Run(cfg, actions).threads && Winds(Run(cfg, actions).board, Run(cfg, actions).threads[t], i)
    ensures var s, s' := Run(cfg, actions), Run(cfg, actions + more);
            && t in s'.threads && Winds(s'.board, s'.threads[t], i)
            && Read(s'.board.log).begun == Read(s.board.log).begun
            && Read(s'.board.log).ran == Read(s.board.log).ran
    decreases |more|
  {
    EveryTally(cfg, actions);
    if more == [] {
      assert actions + more == actions;
    } else {
      EveryRun(cfg, actions);
      EveryRunTells(cfg, actions);
      RunMore(cfg, actions, more[0], more[1..]);
      assert [more[0]] + more[1..] == more;
      StepWinds(cfg, Run(cfg, actions), more[0], t, i, Ended(actions));
      EveryTally(cfg, actions + [more[0]]);
      EndIsHeeded(cfg, actions + [more[0]], more[1..], t, i);
    }
  }
}
