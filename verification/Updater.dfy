/** The desktop updater: what the native updater, the menu and suspended restarts do to it. */
module Updater {
  import opened Common
  import opened StableVersion

  datatype Phase =
    | Disabled
    | Idle
    | Checking
    | Downloading
    | Failed
    | Ready(version: string, deferred: bool)
    | Restarting(version: string)

  /** `suspended` lists the restart calls that wait for their preparation, by the state each saw. */
  datatype State = State(phase: Phase, initialized: bool, restartInFlight: bool, suspended: seq<Phase>)

  const START := State(Disabled, false, false, [])

  datatype Action =
    | Initialize(feed: bool, binds: bool)       // whether there is a feed URL, and native setup works
    | Check(throws: bool)                       // a throwing native check emits no events
    | Available
    | NotAvailable
    | NativeError
    | Downloaded(name: Option<string>)
    | Defer
    | Restart
    | Prepared(i: nat, ok: bool, throws: bool)  // call i's preparation settles; does installing throw?

  predicate Busy(p: Phase) {
    p.Checking? || p.Downloading?
  }

  function Next(current: string, s: State, a: Action): State {
    match a
    case Initialize(feed, binds) =>
      if s.initialized then s
      else s.(initialized := true, phase := if feed && binds then Idle else s.phase)
    case Check(throws) =>
      if !s.phase.Idle? && !s.phase.Failed? then s
      else s.(phase := if throws then Failed else Checking)
    case Available => if s.phase.Checking? then s.(phase := Downloading) else s
    case NotAvailable => if Busy(s.phase) then s.(phase := Idle) else s
    case NativeError => if Busy(s.phase) then s.(phase := Failed) else s
    case Downloaded(name) =>
      if !Busy(s.phase) then s
      else s.(phase := if name.Some? && Newer(name.value, current) then Ready(name.value, false) else Failed)
    case Defer => if s.phase.Ready? then s.(phase := Ready(s.phase.version, true)) else s
    case Restart =>
      if !s.phase.Ready? || s.restartInFlight then s
      else s.(restartInFlight := true, suspended := s.suspended + [s.phase])
    case Prepared(i, ok, throws) =>
      if i >= |s.suspended| then s else
        var saw := s.suspended[i];
        var rest := s.(suspended := s.suspended[..i] + s.suspended[i + 1..]);
        if !ok then rest.(restartInFlight := false)
        else if throws then rest.(phase := saw, restartInFlight := false)
        else rest.(phase := if saw.Ready? then Restarting(saw.version) else saw)
  }

  function Run(current: string, actions: seq<Action>): State {
    if actions == [] then START
    else Next(current, Run(current, actions[..|actions| - 1]), actions[|actions| - 1])
  }

  /** The downloaded version, once there is one. */
  function Target(p: Phase): Option<string> {
    if p.Ready? || p.Restarting? then Some(p.version) else None
  }

  /** How many restarts are under way. */
  function Restarts(s: State): nat {
    |s.suspended| + if s.phase.Restarting? then 1 else 0
  }

  /** Every suspended restart saw the version that is still on offer. */
  predicate Await(suspended: seq<Phase>, p: Phase) {
    forall i :: 0 <= i < |suspended| ==> p.Ready? && suspended[i].Ready? && suspended[i].version == p.version
  }

  predicate Inv(current: string, s: State) {
    && (!s.initialized ==> s.phase.Disabled?)
    && (Target(s.phase).Some? ==> Newer(Target(s.phase).value, current))
    && Restarts(s) == (if s.restartInFlight then 1 else 0)
    && Await(s.suspended, s.phase)
  }

  /** The one restart under way is settled. */
  lemma PreparedKeeps(current: string, s: State, a: Action)
    requires Inv(current, s) && a.Prepared? && a.i < |s.suspended|
    ensures Inv(current, Next(current, s, a))
    ensures Target(s.phase).Some? ==> Target(Next(current, s, a).phase) == Target(s.phase)
  {
    var saw := s.suspended[a.i];
    assert s.suspended[..a.i] + s.suspended[a.i + 1..] == [];
    assert saw.Ready? && saw.version == s.phase.version;
    assert Next(current, s, a).suspended == [];
  }

  /** What a settled preparation leads to, by its outcome. */
  lemma PreparedOutcome(current: string, s: State, i: nat, ok: bool, throws: bool)
    requires Inv(current, s) && i < |s.suspended|
    ensures var saw, rest := s.suspended[i], s.suspended[..i] + s.suspended[i + 1..];
            && saw.Ready?
            && Next(current, s, Prepared(i, ok, throws))
            == if !ok then s.(restartInFlight := false, suspended := rest)
               else if throws then s.(phase := saw, restartInFlight := false, suspended := rest)
               else s.(phase := Restarting(saw.version), suspended := rest)
  {
    assert s.suspended[i].Ready?;
  }

  /** A restart begins: the offered version is what it waits with. */
  lemma RestartKeeps(current: string, s: State)
    requires Inv(current, s)
    ensures Inv(current, Next(current, s, Restart))
  {
    if s.phase.Ready? && !s.restartInFlight {
      assert s.suspended == [];
      assert s.suspended + [s.phase] == [s.phase];
    }
  }

  /** Nothing else touches the suspended restarts, or the version they wait with. */
  lemma StillAwaited(current: string, s: State, a: Action)
    requires Await(s.suspended, s.phase) && !a.Restart? && !a.Prepared?
    requires !s.initialized ==> s.phase.Disabled?
    ensures Next(current, s, a).suspended == s.suspended && Await(s.suspended, Next(current, s, a).phase)
  {
    if s.suspended != [] {
      assert s.suspended[0].Ready? && s.phase.Ready?;
    }
  }

  lemma StepKeeps(current: string, s: State, a: Action)
    requires Inv(current, s)
    ensures Inv(current, Next(current, s, a))
    ensures Target(s.phase).Some? ==> Target(Next(current, s, a).phase) == Target(s.phase)
  {
    match a
    case Restart => RestartKeeps(current, s);
    case Prepared(i, _, _) =>
      if i < |s.suspended| {
        PreparedKeeps(current, s, a);
      }
    case _ =>
      StillAwaited(current, s, a);
  }

  /** Phases from which a check may be started. */
  predicate Restful(p: Phase) {
    p.Idle? || p.Failed?
  }

  /**
   * What leads where. A version is offered exactly when a download that was under way ends with a
   * text that is newer than the running version; any other end of it fails. A check starts only at rest,
   * an update found moves it on, none found puts it at rest, and an error fails it.
   */
  lemma EventMeans(current: string, s: State, a: Action)
    ensures var p, q := s.phase, Next(current, s, a).phase;
            match a
            case Initialize(feed, binds) => q == if !s.initialized && feed && binds then Idle else p
            case Check(throws) => q == if Restful(p) then (if throws then Failed else Checking) else p
            case Available => q == if p.Checking? then Downloading else p
            case NotAvailable => q == if p in {Checking, Downloading} then Idle else p
            case NativeError => q == if p in {Checking, Downloading} then Failed else p
            case Downloaded(name) =>
              if p !in {Checking, Downloading} then q == p
              else if name.Some? && Newer(name.value, current) then q == Ready(name.value, false)
              else q == Failed
            case Defer => q == if p.Ready? then Ready(p.version, true) else p
            case Restart => q == p
            case Prepared(_, _, _) => true
  {
  }

  /**
   * A restart is begun exactly once per offer at a time, and its end decides: a preparation or an
   * installation that fails offers the version again, and otherwise the updater restarts with it.
   */
  lemma RestartMeans(current: string, s: State, ok: bool, throws: bool)
    requires Inv(current, s) && s.phase.Ready? && !s.restartInFlight
    ensures var begun := Next(current, s, Restart);
            var ended := Next(current, begun, Prepared(0, ok, throws));
            && begun.restartInFlight && |begun.suspended| == 1 && begun.phase == s.phase
            && Next(current, begun, Restart) == begun
            && ended.suspended == []
            && (if ok && !throws then ended.phase == Restarting(s.phase.version) && ended.restartInFlight
                else ended.phase == s.phase && !ended.restartInFlight)
  {
    var begun := Next(current, s, Restart);
    assert s.suspended == [];
    assert begun.suspended == [s.phase];
    assert begun.suspended[..0] + begun.suspended[1..] == [];
  }

  lemma {:induction false} EveryRun(current: string, actions: seq<Action>)
    ensures Inv(current, Run(current, actions))
  {
    if actions != [] {
      EveryRun(current, actions[..|actions| - 1]);
      StepKeeps(current, Run(current, actions[..|actions| - 1]), actions[|actions| - 1]);
    }
  }

  /**
   * In every run: a version is offered only if it is newer than the running one, and from then on
   * the updater stays ready or restarting with that very version; never more than one restart
   * is under way.
   */
  lemma {:induction false} OfferedVersionStays(current: string, actions: seq<Action>, k: nat)
    requires k <= |actions|
    ensures var p, s := Run(current, actions[..k]).phase, Run(current, actions);
            && (Target(p).Some? ==> Newer(Target(p).value, current) && Target(s.phase) == Target(p))
            && Restarts(s) <= 1
  {
    EveryRun(current, actions[..k]);
    EveryRun(current, actions);
    if k == |actions| {
      assert actions[..k] == actions;
    } else {
      var before := actions[..|actions| - 1];
      assert actions[..k] == before[..k];
      OfferedVersionStays(current, before, k);
      EveryRun(current, before);
      StepKeeps(current, Run(current, before), actions[|actions| - 1]);
    }
  }

  /** The updater in place; a restart is the part before its preparation and the part after it. */
  class DesktopUpdater {
    const current: string
    var phase: Phase
    var initialized: bool
    var restartInFlight: bool
    var suspended: seq<Phase>

    function View(): State
      reads this
    {
      State(phase, initialized, restartInFlight, suspended)
    }

    constructor (current: string)
      ensures View() == START && this.current == current
    {
      this.current := current;
      phase, initialized, restartInFlight, suspended := Disabled, false, false, [];
    }

    method StartUp(feed: bool, binds: bool) returns (enabled: bool)
      modifies this
      ensures View() == Next(current, old(View()), Initialize(feed, binds))
      ensures enabled <==> if old(initialized) then !phase.Disabled? else feed && binds
    {
      if initialized {
        return !phase.Disabled?;
      }
      initialized := true;
      if !feed || !binds {
        return false;
      }
      phase := Idle;
      return true;
    }

    method RunCheck(throws: bool) returns (started: bool)
      modifies this
      ensures View() == Next(current, old(View()), Check(throws))
      ensures started <==> old(phase).Idle? || old(phase).Failed?
    {
      if phase.Disabled? || Busy(phase) || phase.Ready? || phase.Restarting? {
        return false;
      }
      phase := Checking;
      if throws {
        phase := Failed;
      }
      return true;
    }

    method OnAvailable()
      modifies this
      ensures View() == Next(current, old(View()), Available)
    {
      if phase.Checking? {
        phase := Downloading;
      }
    }

    method OnNotAvailable()
      modifies this
      ensures View() == Next(current, old(View()), NotAvailable)
    {
      if Busy(phase) {
        phase := Idle;
      }
    }

    method OnError()
      modifies this
      ensures View() == Next(current, old(View()), NativeError)
    {
      if Busy(phase) {
        phase := Failed;
      }
    }

    method OnDownloaded(name: Option<string>)
      modifies this
      ensures View() == Next(current, old(View()), Downloaded(name))
    {
      if !Busy(phase) {
        return;
      }
      if name.None? {
        phase := Failed;
        return;
      }
      var newer := IsNewerStableVersion(name.value, current);
      phase := if newer then Ready(name.value, false) else Failed;
    }

    method Postpone() returns (done: bool)
      modifies this
      ensures View() == Next(current, old(View()), Defer)
      ensures done <==> old(phase).Ready? && !old(phase).deferred
    {
      if !phase.Ready? || phase.deferred {
        return false;
      }
      phase := Ready(phase.version, true);
      return true;
    }

    method BeginRestart() returns (begun: bool)
      modifies this
      ensures View() == Next(current, old(View()), Restart)
      ensures begun <==> old(phase).Ready? && !old(restartInFlight)
    {
      if !phase.Ready? || restartInFlight {
        return false;
      }
      restartInFlight := true;
      suspended := suspended + [phase];
      return true;
    }

    method FinishRestart(i: nat, ok: bool, throws: bool) returns (done: bool)
      requires Inv(current, View()) && i < |suspended|
      modifies this
      ensures View() == Next(current, old(View()), Prepared(i, ok, throws))
      ensures done <==> ok && !throws
    {
      var saw := suspended[i];
      PreparedOutcome(current, View(), i, ok, throws);
      suspended := suspended[..i] + suspended[i + 1..];
      if !ok {
        restartInFlight := false;
        return false;
      }
      phase := Restarting(saw.version);
      if throws {
        phase := saw;
        restartInFlight := false;
        return false;
      }
      return true;
    }
  }
}
