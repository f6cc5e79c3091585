/** The lifecycle owner carried out in place: its critical sections and its loops over components. */
module LifecycleOwner {
  import opened Common
  import opened Lifecycle

  predicate Within(indexes: seq<nat>, n: nat) {
    forall k :: 0 <= k < |indexes| ==> indexes[k] < n
  }

  /** The listed components that are not nil, in order. */
  function NonNil(components: seq<bool>, indexes: seq<nat>): seq<nat>
    requires Within(indexes, |components|)
  {
    if indexes == [] then [] else
      var n := |indexes| - 1;
      var rest := NonNil(components, indexes[..n]);
      if components[indexes[n]] then rest + [indexes[n]] else rest
  }

  /** Slots known to hold components are all called. */
  lemma {:induction false} AllNonNil(components: seq<bool>, indexes: seq<nat>)
    requires Within(indexes, |components|)
    requires forall i :: i in indexes ==> components[i]
    ensures NonNil(components, indexes) == indexes
  {
    if indexes != [] {
      var n := |indexes| - 1;
      assert indexes == indexes[..n] + [indexes[n]];
      AllNonNil(components, indexes[..n]);
    }
  }

  /** The failing ones among the calls, in call order, each as its error. */
  function Faults(calls: seq<nat>, outcomes: nat -> bool, fault: nat -> Fault): Errors {
    if calls == [] then [] else
      var before, last := Faults(calls[..|calls| - 1], outcomes, fault), calls[|calls| - 1];
      if outcomes(last) then before else before + [fault(last)]
  }

  lemma FaultsAppend(calls: seq<nat>, x: nat, outcomes: nat -> bool, fault: nat -> Fault)
    ensures Faults(calls + [x], outcomes, fault)
         == if outcomes(x) then Faults(calls, outcomes, fault) else Faults(calls, outcomes, fault) + [fault(x)]
  {
    assert (calls + [x])[..|calls|] == calls;
  }

  /** Calling the last one left keeps what was called plus what is left, read backwards. */
  lemma CallLast(calls: seq<nat>, left: seq<nat>, x: nat)
    ensures calls + Reversed(left + [x]) == (calls + [x]) + Reversed(left)
  {
    ReversedAppend(left, x);
    Regroup(calls, x, Reversed(left));
  }

  function StopFaultOf(i: nat): Fault { StopFault(i) }
  function CleanupFaultOf(i: nat): Fault { CleanupFault(i) }

  class Owner {
    const components: seq<bool>   // which component slots are non-nil
    const cleanups: seq<bool>     // which cleanup slots are non-nil
    var phase: Phase
    var done: Option<nat>
    var startErr: Errors
    var shutdownErr: Errors
    var cleanupErr: Errors
    var cleanupDone: bool
    var started: seq<bool>
    var stopReq: bool
    var startCancel: bool
    var cleanupOnce: bool

    ghost function View(): Shared
      reads this
    {
      Shared(phase, done, startErr, shutdownErr, cleanupErr, cleanupDone, started, stopReq, startCancel)
    }

    constructor (components: seq<bool>, cleanups: seq<bool>)
      ensures View() == FRESH && !cleanupOnce
      ensures this.components == components && this.cleanups == cleanups
    {
      this.components, this.cleanups := components, cleanups;
      phase, done, startErr, shutdownErr, cleanupErr := Idle, None, [], [], [];
      cleanupDone, started, stopReq, startCancel, cleanupOnce := false, [], false, false, false;
    }

    method StartedIndexesLocked() returns (indexes: seq<nat>)
      ensures indexes == Indexes(started)
    {
      indexes := [];
      for index := 0 to |started|
        invariant indexes == Indexes(started[..index])
      {
        IndexesSplit(started, index);
        if started[index] {
          indexes := indexes + [index];
        }
      }
      assert started[..|started|] == started;
    }

    /** Take over every started component, lowering its flag. */
    method TakeStarted() returns (indexes: seq<nat>)
      modifies this`started
      ensures indexes == Indexes(old(started)) && started == Lowered(|old(started)|)
    {
      indexes := StartedIndexesLocked();
      ghost var before := started;
      IndexesExact(before);
      for k := 0 to |indexes|
        invariant |started| == |before|
        invariant forall j :: 0 <= j < |before| && !before[j] ==> !started[j]
        invariant forall j :: 0 <= j < k ==> indexes[j] < |started| && !started[indexes[j]]
      {
        started := started[indexes[k] := false];
      }
      forall j | 0 <= j < |before|
        ensures !started[j]
      {
        if before[j] {
          assert j in indexes;
        }
      }
    }

    method EnterStartLocked(channel: nat) returns (entry: Entry)
      modifies this
      ensures (View(), entry) == EnterStart(old(View()), |components|, channel)
      ensures cleanupOnce == old(cleanupOnce)
    {
      match phase
      case Running | Stopped => entry := Answer(startErr);
      case Starting | Stopping => entry := Await(done);
      case Idle =>
        phase := Starting;
        done := Some(channel);
        started := Lowered(|components|);
        startErr, shutdownErr, cleanupErr := [], [], [];
        stopReq, startCancel := false, true;
        entry := Own(channel, []);
    }

    method EnterShutdownLocked(channel: nat) returns (entry: Entry)
      modifies this
      ensures (View(), entry) == EnterShutdown(old(View()), channel)
      ensures cleanupOnce == old(cleanupOnce)
    {
      match phase
      case Stopped => entry := Answer(shutdownErr);
      case Starting =>
        stopReq := true;
        entry := Await(done);
      case Stopping => entry := Await(done);
      case Idle | Running =>
        stopReq := true;
        phase := Stopping;
        done := Some(channel);
        var indexes := TakeStarted();
        entry := Own(channel, indexes);
    }

    method BeginUnwindLocked() returns (indexes: seq<nat>)
      modifies this
      ensures (View(), indexes) == BeginUnwind(old(View()))
      ensures cleanupOnce == old(cleanupOnce)
    {
      indexes := TakeStarted();
      phase := Stopping;
    }

    method RecordStartedLocked(i: nat) returns (stop: bool)
      requires i < |started|
      modifies this`started
      ensures (View(), stop) == RecordStarted(old(View()), i)
    {
      started := started[i := true];
      stop := stopReq;
    }

    method FinalGateLocked(canceled: bool) returns (stop: Option<Cause>)
      modifies this`phase
      ensures (View(), stop) == FinalGate(old(View()), |components|, canceled)
    {
      if stopReq {
        return Some(Requested);
      }
      if canceled {
        return Some(Aborted(|components|));
      }
      phase := Running;
      stop := None;
    }

    /** Calls Stop on the listed components, last first, whatever fails, and joins the errors in that order. */
    method StopComponents(indexes: seq<nat>, outcomes: nat -> bool) returns (errs: Errors, calls: seq<nat>)
      requires Within(indexes, |components|)
      ensures calls == Reversed(NonNil(components, indexes))
      ensures (forall i :: i in indexes ==> components[i]) ==> calls == Reversed(indexes)
      ensures errs == Faults(calls, outcomes, StopFaultOf)
    {
      errs, calls := [], [];
      var i := |indexes|;
      assert indexes[..i] == indexes;
      while i > 0
        invariant 0 <= i <= |indexes|
        invariant calls + Reversed(NonNil(components, indexes[..i])) == Reversed(NonNil(components, indexes))
        invariant errs == Faults(calls, outcomes, StopFaultOf)
      {
        i := i - 1;
        var index := indexes[i];
        assert indexes[..i + 1][..i] == indexes[..i];
        if components[index] {
          CallLast(calls, NonNil(components, indexes[..i]), index);
          FaultsAppend(calls, index, outcomes, StopFaultOf);
          calls := calls + [index];
          if !outcomes(index) {
            errs := errs + [StopFault(index)];
          }
        }
      }
      if forall i :: i in indexes ==> components[i] {
        AllNonNil(components, indexes);
      }
    }

    /** Runs every cleanup once, last first, whatever fails, and records their joined error. */
    method RunCleanup(outcomes: nat -> bool) returns (calls: seq<nat>)
      modifies this`cleanupOnce, this`cleanupErr, this`cleanupDone
      ensures cleanupOnce
      ensures old(cleanupOnce) ==> View() == old(View()) && calls == []
      ensures !old(cleanupOnce) ==>
                && calls == Reversed(Indexes(cleanups))
                && View() == RecordCleanup(old(View()), Faults(calls, outcomes, CleanupFaultOf))
    {
      if cleanupOnce {
        return [];
      }
      cleanupOnce := true;
      var errs;
      errs, calls := CallCleanups(outcomes);
      cleanupErr, cleanupDone := errs, true;
    }

    method CallCleanups(outcomes: nat -> bool) returns (errs: Errors, calls: seq<nat>)
      ensures calls == Reversed(Indexes(cleanups)) && errs == Faults(calls, outcomes, CleanupFaultOf)
    {
      errs, calls := [], [];
      var index := |cleanups|;
      assert cleanups[..index] == cleanups;
      while index > 0
        invariant 0 <= index <= |cleanups|
        invariant calls + Reversed(Indexes(cleanups[..index])) == Reversed(Indexes(cleanups))
        invariant errs == Faults(calls, outcomes, CleanupFaultOf)
      {
        index := index - 1;
        IndexesSplit(cleanups, index);
        if cleanups[index] {
          CallLast(calls, Indexes(cleanups[..index]), index);
          FaultsAppend(calls, index, outcomes, CleanupFaultOf);
          calls := calls + [index];
          if !outcomes(index) {
            errs := errs + [CleanupFault(index)];
          }
        }
      }
    }

    method SealStartupLocked(cause: Cause, stopErr: Errors, cleaned: Errors)
      modifies this
      ensures View() == SealStartup(old(View()), cause, stopErr, cleaned)
      ensures cleanupOnce == old(cleanupOnce)
    {
      startErr := cause.Errors() + stopErr + cleaned;
      shutdownErr := stopErr + if cause.Requested? then cleaned else cleanupErr;
      phase, startCancel := Stopped, false;
    }

    method SealShutdownLocked(stopErr: Errors)
      modifies this
      ensures View() == SealShutdown(old(View()), stopErr)
      ensures cleanupOnce == old(cleanupOnce)
    {
      shutdownErr := stopErr + cleanupErr;
      if startErr == [] && stopReq {
        startErr := [Canceled];
      }
      phase, startCancel := Stopped, false;
    }
  }
}
