/**
 * Two settings a platform store writes once: the environment it is bound to and its instance id.
 *
 * Callers read, check, insert if absent and read again, in any interleaving. The insert is one
 * atomic statement, any statement may fail, and a failed insert may or may not have written.
 */
module InstanceBinding {
  import opened Common
  import opened Text

  /** A write-once setting and how often it was written. */
  datatype Setting = Setting(value: Option<string>, writes: nat)

  function InsertIfAbsent(s: Setting, value: string): Setting {
    if s.value.Some? then s else Setting(Some(value), s.writes + 1)
  }

  datatype Pc =
    | BindCalled(request: string)
    | BindUnbound(environment: string)     // the first read found nothing
    | BindChecked(environment: string)     // no active state belongs elsewhere
    | BindInserted(environment: string)
    | BindDone(environment: string, ok: bool)
    | IdCalled
    | IdMissing                            // the first read found nothing
    | IdInserted
    | IdDone(id: Option<string>)

  datatype State = State(environment: Setting, id: Setting, callers: map<nat, Pc>)

  const EMPTY := State(Setting(None, 0), Setting(None, 0), map[])

  /** How the statement of a step turns out; `supplied` is what the step reads or draws from outside. */
  datatype Weather =
    | Works(supplied: seq<string>)
    | Lost(supplied: seq<string>)    // it took effect, and an error was reported all the same
    | Fails

  datatype Action = CallBind(t: nat, request: string) | CallID(t: nat) | Advance(t: nat, weather: Weather)

  predicate Conflicts(active: seq<string>, environment: string) {
    exists i :: 0 <= i < |active| && Trim(active[i]) != "" && Trim(active[i]) != environment
  }

  function MoveBind(setting: Setting, pc: Pc, w: Weather): (Setting, Pc)
    requires pc.BindCalled? || pc.BindUnbound? || pc.BindChecked? || pc.BindInserted?
  {
    match pc
    case BindCalled(request) =>
      var e := Trim(request);
      if e == "" || !w.Works? then (setting, BindDone(e, false))
      else if setting.value.Some? then (setting, BindDone(e, setting.value.value == e))
      else (setting, BindUnbound(e))
    case BindUnbound(e) =>
      if !w.Works? || Conflicts(w.supplied, e) then (setting, BindDone(e, false)) else (setting, BindChecked(e))
    case BindChecked(e) =>
      if !w.Works? then (if w.Lost? then InsertIfAbsent(setting, e) else setting, BindDone(e, false))
      else (InsertIfAbsent(setting, e), BindInserted(e))
    case BindInserted(e) =>
      (setting, BindDone(e, w.Works? && setting.value == Some(e)))
  }

  function MoveID(setting: Setting, pc: Pc, w: Weather): (Setting, Pc)
    requires pc.IdCalled? || pc.IdMissing? || pc.IdInserted?
  {
    match pc
    case IdCalled =>
      if !w.Works? then (setting, IdDone(None))
      else if setting.value.Some? then (setting, IdDone(setting.value))
      else (setting, IdMissing)
    case IdMissing =>
      if w.Fails? || w.supplied == [] then (setting, IdDone(None))
      else (InsertIfAbsent(setting, w.supplied[0]), if w.Works? then IdInserted else IdDone(None))
    case IdInserted => (setting, IdDone(if w.Works? then setting.value else None))
  }

  function Next(s: State, a: Action): State {
    match a
    case CallBind(t, request) => if t in s.callers then s else s.(callers := s.callers[t := BindCalled(request)])
    case CallID(t) => if t in s.callers then s else s.(callers := s.callers[t := IdCalled])
    case Advance(t, w) =>
      if t !in s.callers then s else
        match s.callers[t]
        case BindDone(_, _) => s
        case IdDone(_) => s
        case IdCalled => StepID(s, t, w)
        case IdMissing => StepID(s, t, w)
        case IdInserted => StepID(s, t, w)
        case _ => StepBind(s, t, w)
  }

  function StepBind(s: State, t: nat, w: Weather): State
    requires t in s.callers
    requires var pc := s.callers[t]; pc.BindCalled? || pc.BindUnbound? || pc.BindChecked? || pc.BindInserted?
  {
    var (setting, pc) := MoveBind(s.environment, s.callers[t], w);
    State(setting, s.id, s.callers[t := pc])
  }

  function StepID(s: State, t: nat, w: Weather): State
    requires t in s.callers && (s.callers[t].IdCalled? || s.callers[t].IdMissing? || s.callers[t].IdInserted?)
  {
    var (setting, pc) := MoveID(s.id, s.callers[t], w);
    State(s.environment, setting, s.callers[t := pc])
  }

  function Run(actions: seq<Action>): State {
    if actions == [] then EMPTY else Next(Run(actions[..|actions| - 1]), actions[|actions| - 1])
  }

  // ---------------------------------------------------------------- what every run keeps

  predicate Tidy(environment: string) {
    environment != "" && Trim(environment) == environment
  }

  predicate SettingOk(s: Setting) {
    s.writes == if s.value.Some? then 1 else 0
  }

  predicate CallerOk(s: State, pc: Pc) {
    match pc
    case BindUnbound(e) => Tidy(e)
    case BindChecked(e) => Tidy(e)
    case BindInserted(e) => Tidy(e) && s.environment.value.Some?
    case BindDone(e, ok) => ok ==> s.environment.value == Some(e)
    case IdInserted => s.id.value.Some?
    case IdDone(id) => id.Some? ==> s.id.value == id
    case _ => true
  }

  predicate Inv(s: State) {
    && SettingOk(s.environment) && SettingOk(s.id)
    && (s.environment.value.Some? ==> Tidy(s.environment.value.value))
    && forall t :: t in s.callers ==> CallerOk(s, s.callers[t])
  }

  /** A setting keeps the value it has. */
  predicate Keeps(before: Setting, after: Setting) {
    before.value.Some? ==> after == before
  }

  lemma BindMoves(s: State, pc: Pc, w: Weather)
    requires pc.BindCalled? || pc.BindUnbound? || pc.BindChecked? || pc.BindInserted?
    requires SettingOk(s.environment) && CallerOk(s, pc)
    requires s.environment.value.Some? ==> Tidy(s.environment.value.value)
    ensures var (setting, pc') := MoveBind(s.environment, pc, w);
            && SettingOk(setting) && Keeps(s.environment, setting) && CallerOk(s.(environment := setting), pc')
            && (setting.value.Some? ==> Tidy(setting.value.value))
  {
    if pc.BindCalled? {
      TrimTwice(pc.request);
    }
  }

  lemma StepKeeps(s: State, a: Action)
    requires Inv(s)
    ensures Inv(Next(s, a))
    ensures Keeps(s.environment, Next(s, a).environment) && Keeps(s.id, Next(s, a).id)
  {
    if a.Advance? && a.t in s.callers {
      var pc := s.callers[a.t];
      if pc.BindCalled? || pc.BindUnbound? || pc.BindChecked? || pc.BindInserted? {
        BindMoves(s, pc, a.weather);
      }
    }
  }

  lemma {:induction false} EveryRun(actions: seq<Action>)
    ensures Inv(Run(actions))
  {
    if actions != [] {
      EveryRun(actions[..|actions| - 1]);
      StepKeeps(Run(actions[..|actions| - 1]), actions[|actions| - 1]);
    }
  }

  /** What is once written stays, over every continuation of a run. */
  lemma {:induction false} WrittenForGood(actions: seq<Action>, k: nat)
    requires k <= |actions|
    ensures Keeps(Run(actions[..k]).environment, Run(actions).environment)
    ensures Keeps(Run(actions[..k]).id, Run(actions).id)
  {
    if k == |actions| {
      assert actions[..k] == actions;
    } else {
      var before := actions[..|actions| - 1];
      assert actions[..k] == before[..k];
      WrittenForGood(before, k);
      EveryRun(before);
      StepKeeps(Run(before), actions[|actions| - 1]);
    }
  }

  /**
   * However callers interleave and whichever statements fail: each setting is written at most
   * once, all Bind calls that ever succeed named the same environment, and all instance ids that
   * are ever returned are the same.
   */
  lemma CallersAgree(actions: seq<Action>, k: nat, t: nat, u: nat)
    requires k <= |actions| && t in Run(actions[..k]).callers && u in Run(actions).callers
    ensures Run(actions).environment.writes <= 1 && Run(actions).id.writes <= 1
    ensures var p, q := Run(actions[..k]).callers[t], Run(actions).callers[u];
            && (p.BindDone? && q.BindDone? && p.ok && q.ok ==> p.environment == q.environment && Tidy(p.environment))
            && (p.IdDone? && q.IdDone? && p.id.Some? && q.id.Some? ==> p.id == q.id)
  {
    EveryRun(actions[..k]);
    EveryRun(actions);
    WrittenForGood(actions, k);
    var s, s' := Run(actions[..k]), Run(actions);
    DoneAgrees(s, s', s.callers[t], s'.callers[u]);
  }

  lemma DoneAgrees(s: State, s': State, p: Pc, q: Pc)
    requires Inv(s) && Keeps(s.environment, s'.environment) && Keeps(s.id, s'.id)
    requires CallerOk(s, p) && CallerOk(s', q)
    ensures p.BindDone? && q.BindDone? && p.ok && q.ok ==> p.environment == q.environment && Tidy(p.environment)
    ensures p.IdDone? && q.IdDone? && p.id.Some? && q.id.Some? ==> p.id == q.id
  {
  }

  // ---------------------------------------------------------------- where values and refusals come from

  /** The step's outside reading shows active state of another environment. */
  predicate ShowsConflict(a: Action, e: string) {
    && a.Advance? && !a.weather.Fails?
    && exists i :: 0 <= i < |a.weather.supplied| && Trim(a.weather.supplied[i]) !in ["", e]
  }

  predicate NamedBy(a: Action, e: string) {
    a.CallBind? && Trim(a.request) == e
  }

  predicate DrawnBy(a: Action, id: string) {
    a.Advance? && !a.weather.Fails? && a.weather.supplied != [] && a.weather.supplied[0] == id
  }

  /** A working reading that shows no active state of another environment. */
  predicate Clears(a: Action, e: string) {
    a.Advance? && a.weather.Works? && !ShowsConflict(a, e)
  }

  predicate Cleared(actions: seq<Action>, e: string) {
    exists i :: 0 <= i < |actions| && Clears(actions[i], e)
  }

  predicate Named(actions: seq<Action>, e: string) {
    exists i :: 0 <= i < |actions| && NamedBy(actions[i], e)
  }

  predicate Drawn(actions: seq<Action>, id: string) {
    exists i :: 0 <= i < |actions| && DrawnBy(actions[i], id)
  }

  predicate Conflicted(actions: seq<Action>, e: string) {
    exists i :: 0 <= i < |actions| && ShowsConflict(actions[i], e)
  }

  /** No statement has failed, and every draw produced something. */
  predicate Smooth(actions: seq<Action>) {
    forall i :: 0 <= i < |actions| && actions[i].Advance? ==>
      actions[i].weather.Works? && actions[i].weather.supplied != []
  }

  predicate CallerTraced(actions: seq<Action>, s: State, pc: Pc) {
    match pc
    case BindCalled(request) => Named(actions, Trim(request))
    case BindUnbound(e) => Named(actions, e)
    case BindChecked(e) => Named(actions, e) && Cleared(actions, e)
    case BindInserted(e) => Named(actions, e)
    case BindDone(e, ok) =>
      !ok && Smooth(actions) ==>
        e == "" || Conflicted(actions, e) || (s.environment.value.Some? && s.environment.value != Some(e))
    case IdDone(id) => Smooth(actions) ==> id.Some?
    case _ => true
  }

  /** The settings hold what callers asked for, cleared and drew. */
  predicate SettingsTraced(actions: seq<Action>, s: State) {
    && (s.environment.value.Some? ==>
          Named(actions, s.environment.value.value) && Cleared(actions, s.environment.value.value))
    && (s.id.value.Some? ==> Drawn(actions, s.id.value.value))
  }

  predicate Traced(actions: seq<Action>, s: State) {
    SettingsTraced(actions, s) && forall t :: t in s.callers ==> CallerTraced(actions, s, s.callers[t])
  }

  /** What an action shows stays shown. */
  lemma MoreShown(actions: seq<Action>, a: Action, e: string)
    ensures Named(actions + [a], e) <==> Named(actions, e) || NamedBy(a, e)
    ensures Drawn(actions + [a], e) <==> Drawn(actions, e) || DrawnBy(a, e)
    ensures Conflicted(actions + [a], e) <==> Conflicted(actions, e) || ShowsConflict(a, e)
    ensures Cleared(actions + [a], e) <==> Cleared(actions, e) || Clears(a, e)
    ensures Smooth(actions + [a]) ==>
              Smooth(actions) && (a.Advance? ==> a.weather.Works? && a.weather.supplied != [])
  {
    var all := actions + [a];
    assert all[|actions|] == a;
    assert forall i :: 0 <= i < |actions| ==> all[i] == actions[i];
  }

  lemma SettingsStayTraced(actions: seq<Action>, a: Action, s: State)
    requires SettingsTraced(actions, s)
    ensures SettingsTraced(actions + [a], s)
  {
    if s.environment.value.Some? {
      MoreShown(actions, a, s.environment.value.value);
    }
    if s.id.value.Some? {
      MoreShown(actions, a, s.id.value.value);
    }
  }

  lemma OtherTraced(actions: seq<Action>, a: Action, s: State, s': State, pc: Pc)
    requires CallerTraced(actions, s, pc) && Keeps(s.environment, s'.environment)
    ensures CallerTraced(actions + [a], s', pc)
  {
    if pc.BindCalled? {
      MoreShown(actions, a, Trim(pc.request));
    } else if pc.BindUnbound? || pc.BindChecked? || pc.BindInserted? || pc.BindDone? {
      MoreShown(actions, a, pc.environment);
    } else {
      MoreShown(actions, a, "");
    }
  }

  /** A Bind that has something to insert: what it inserts was asked for and cleared. */
  lemma InsertTraced(actions: seq<Action>, a: Action, s: State, e: string)
    requires a.Advance? && SettingsTraced(actions, s) && Named(actions, e) && Cleared(actions, e)
    ensures var (setting, pc') := MoveBind(s.environment, BindChecked(e), a.weather);
            && SettingsTraced(actions + [a], s.(environment := setting))
            && CallerTraced(actions + [a], s.(environment := setting), pc')
  {
    MoreShown(actions, a, e);
    SettingsStayTraced(actions, a, s);
  }

  lemma BindTraced(actions: seq<Action>, a: Action, s: State, pc: Pc)
    requires a.Advance? && (pc.BindCalled? || pc.BindUnbound? || pc.BindChecked? || pc.BindInserted?)
    requires SettingsTraced(actions, s) && CallerTraced(actions, s, pc) && CallerOk(s, pc)
    ensures var (setting, pc') := MoveBind(s.environment, pc, a.weather);
            && SettingsTraced(actions + [a], s.(environment := setting))
            && CallerTraced(actions + [a], s.(environment := setting), pc')
  {
    if pc.BindChecked? {
      InsertTraced(actions, a, s, pc.environment);
    } else {
      MoreShown(actions, a, if pc.BindCalled? then Trim(pc.request) else pc.environment);
      SettingsStayTraced(actions, a, s);
    }
  }

  lemma IDTraced(actions: seq<Action>, a: Action, s: State, pc: Pc)
    requires a.Advance? && (pc.IdCalled? || pc.IdMissing? || pc.IdInserted?)
    requires Traced(actions, s) && CallerOk(s, pc)
    ensures var (setting, pc') := MoveID(s.id, pc, a.weather);
            && (setting.value.Some? ==> Drawn(actions + [a], setting.value.value))
            && CallerTraced(actions + [a], s.(id := setting), pc')
  {
    MoreShown(actions, a, if s.id.value.Some? then s.id.value.value else "");
    if !a.weather.Fails? && a.weather.supplied != [] {
      MoreShown(actions, a, a.weather.supplied[0]);
    }
  }

  lemma OthersTraced(actions: seq<Action>, a: Action, s: State, t: nat)
    requires Inv(s) && Traced(actions, s) && a.Advance? && a.t == t
    ensures forall u :: u in s.callers && u != t ==> CallerTraced(actions + [a], Next(s, a), s.callers[u])
  {
    StepKeeps(s, a);
    forall u | u in s.callers && u != t
      ensures CallerTraced(actions + [a], Next(s, a), s.callers[u])
    {
      OtherTraced(actions, a, s, Next(s, a), s.callers[u]);
    }
  }

  lemma CallTraced(actions: seq<Action>, s: State, a: Action)
    requires Traced(actions, s) && !a.Advance?
    ensures Traced(actions + [a], Next(s, a))
  {
    var s' := Next(s, a);
    SettingsStayTraced(actions, a, s);
    forall u | u in s'.callers
      ensures CallerTraced(actions + [a], s', s'.callers[u])
    {
      if u in s.callers {
        OtherTraced(actions, a, s, s', s.callers[u]);
      } else if a.CallBind? {
        MoreShown(actions, a, Trim(a.request));
      }
    }
  }

  lemma AdvanceTraced(actions: seq<Action>, s: State, a: Action)
    requires Inv(s) && Traced(actions, s) && a.Advance?
    ensures Traced(actions + [a], Next(s, a))
  {
    SettingsStayTraced(actions, a, s);
    OthersTraced(actions, a, s, a.t);
    if a.t in s.callers {
      var pc := s.callers[a.t];
      if pc.BindCalled? || pc.BindUnbound? || pc.BindChecked? || pc.BindInserted? {
        BindTraced(actions, a, s, pc);
      } else if pc.IdCalled? || pc.IdMissing? || pc.IdInserted? {
        IDTraced(actions, a, s, pc);
      } else {
        OtherTraced(actions, a, s, s, pc);
      }
    }
  }

  lemma {:induction false} EveryRunTraced(actions: seq<Action>)
    ensures Traced(actions, Run(actions))
  {
    if actions != [] {
      var before := actions[..|actions| - 1];
      assert actions == before + [actions[|actions| - 1]];
      EveryRunTraced(before);
      EveryRun(before);
      if actions[|actions| - 1].Advance? {
        AdvanceTraced(before, Run(before), actions[|actions| - 1]);
      } else {
        CallTraced(before, Run(before), actions[|actions| - 1]);
      }
    }
  }

  /**
   * In every run a bound environment is one some caller asked for and some reading found in no
   * conflict with active state, and an instance id is one some caller drew. As long as no statement
   * fails, every finished id call has an id, and every refused Bind is blank, met active state of
   * another environment, or another one got bound.
   */
  lemma ValuesAndRefusalsHaveSources(actions: seq<Action>, t: nat)
    requires t in Run(actions).callers
    ensures var s := Run(actions); var pc := s.callers[t];
            && (s.environment.value.Some? ==>
                  Named(actions, s.environment.value.value) && Cleared(actions, s.environment.value.value))
            && (s.id.value.Some? ==> Drawn(actions, s.id.value.value))
            && (Smooth(actions) && pc.IdDone? ==> pc.id.Some? && pc.id == s.id.value)
            && (Smooth(actions) && pc.BindDone? && !pc.ok ==>
                  || pc.environment == "" || Conflicted(actions, pc.environment)
                  || (s.environment.value.Some? && s.environment.value != Some(pc.environment)))
  {
    EveryRunTraced(actions);
    EveryRun(actions);
    var s := Run(actions);
    assert CallerTraced(actions, s, s.callers[t]) && CallerOk(s, s.callers[t]);
  }

  // ---------------------------------------------------------------- the calls

  /** The store as one caller sees it; other callers act between its statements. */
  class Store {
    var environment: Option<string>
    var id: Option<string>

    constructor ()
      ensures environment == None && id == None
    {
      environment, id := None, None;
    }

    /** Any number of statements of other callers: they never change what is written. `quiet` if there were none. */
    method Interfere() returns (ghost quiet: bool)
      modifies this
      ensures old(environment).Some? ==> environment == old(environment)
      ensures old(id).Some? ==> id == old(id)
      ensures quiet ==> environment == old(environment) && id == old(id)
    {
      quiet := *;
    }

    /**
     * Succeeds only bound to the trimmed request, and never changes an existing binding. `up` says
     * which of the four statements work, `lost` whether a failing insert took effect. With a quiet
     * store the first binding is the one asked for.
     */
    method BindInstanceEnvironment(request: string, active: seq<string>, up: seq<bool>, lost: bool)
      returns (ok: bool, ghost quiet: bool)
      requires |up| == 4
      modifies this
      ensures ok ==> Trim(request) != "" && environment == Some(Trim(request))
      ensures old(environment).Some? ==> environment == old(environment)
      ensures old(environment) == Some(Trim(request)) && Trim(request) != "" && up[0] ==> ok
      ensures Trim(request) == "" || (old(environment).None? && Conflicts(active, Trim(request))) ==> !ok
      ensures up == [true, true, true, true] && Trim(request) != "" && !Conflicts(active, Trim(request)) ==>
                environment.Some? && (ok <==> environment == Some(Trim(request)))
      ensures old(id).Some? ==> id == old(id)
      ensures quiet ==>
                && id == old(id) && environment in {old(environment), Some(Trim(request))}
                && (up == [true, true, true, true] && Trim(request) != "" && old(environment).None? ==>
                      (ok <==> !Conflicts(active, Trim(request))) && (ok <==> environment == Some(Trim(request))))
    {
      quiet := true;
      ghost var calm: bool;
      var requested := Trim(request);
      if requested == "" || !up[0] {
        return false, quiet;
      }
      if environment.Some? {
        return environment.value == requested, quiet;
      }
      calm := Interfere();
      quiet := quiet && calm;
      if !up[1] {
        return false, quiet;
      }
      for i := 0 to |active|
        invariant old(id).Some? ==> id == old(id)
        invariant forall j :: 0 <= j < i ==> Trim(active[j]) == "" || Trim(active[j]) == requested
      {
        if Trim(active[i]) != "" && Trim(active[i]) != requested {
          return false, quiet;
        }
      }
      calm := Interfere();
      quiet := quiet && calm;
      if environment.None? && (up[2] || lost) {
        environment := Some(requested);
      }
      if !up[2] {
        return false, quiet;
      }
      calm := Interfere();
      quiet := quiet && calm;
      return up[3] && environment == Some(requested), quiet;
    }

    /** Returns the id the store has from then on; with a quiet store the first one is the one drawn. */
    method InstanceID(entropy: string, up: seq<bool>, lost: bool) returns (r: Option<string>, ghost quiet: bool)
      requires |up| == 3
      modifies this
      ensures r.Some? ==> id == r
      ensures up == [true, true, true] ==> r.Some? && (old(id).None? || r == old(id))
      ensures old(id).Some? ==> id == old(id) && (up[0] ==> r == id)
      ensures old(environment).Some? ==> environment == old(environment)
      ensures quiet ==>
                && environment == old(environment) && (r.Some? && old(id).None? ==> r == Some(entropy))
                && id in {old(id), Some(entropy)}
    {
      quiet := true;
      ghost var calm: bool;
      if !up[0] {
        return None, quiet;
      }
      if id.Some? {
        return id, quiet;
      }
      calm := Interfere();
      quiet := quiet && calm;
      if id.None? && (up[1] || lost) {
        id := Some(entropy);
      }
      if !up[1] {
        return None, quiet;
      }
      calm := Interfere();
      quiet := quiet && calm;
      return if up[2] then id else None, quiet;
    }
  }
}
