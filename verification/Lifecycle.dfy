/**
 * The mutex-protected state of the process lifecycle and its critical sections.
 *
 * Each function below is what one lock/unlock region of the lifecycle owner does to the
 * shared record. `LifecycleRuns` interleaves them; `LifecycleOwner` carries them out in place.
 */
module Lifecycle {
  import opened Common

  datatype Phase = Idle | Starting | Running | Stopping | Stopped {
    function Rank(): nat {
      match this
      case Idle => 0
      case Starting => 1
      case Running => 2
      case Stopping => 3
      case Stopped => 4
    }
  }

  /** One wrapped error; a joined error is the sequence of its parts and nil is the empty one. */
  datatype Fault =
    | StartFault(component: nat)
    | Canceled
    | StopFault(component: nat)
    | CleanupFault(index: nat)

  type Errors = seq<Fault>

  /** Why startup or shutdown tears the process down. */
  datatype Cause =
    | Failed(component: nat)    // a component's Start returned an error
    | Aborted(component: nat)   // the startup context ended first
    | Requested                 // a shutdown arrived during startup
    | Ordered                   // a shutdown found the process idle or running
  {
    function Errors(): Errors {
      match this
      case Failed(i) => [StartFault(i)]
      case Aborted(i) => [StartFault(i)]
      case Requested => [Canceled]
      case Ordered => []
    }
  }

  datatype Shared = Shared(
    phase: Phase,
    done: Option<nat>,       // the channel the next waiter receives from
    startErr: Errors,
    shutdownErr: Errors,
    cleanupErr: Errors,
    cleanupDone: bool,
    started: seq<bool>,
    stopReq: bool,
    startCancel: bool)       // whether a cancel function for the startup context is held

  const FRESH := Shared(Idle, None, [], [], [], false, [], false, false)

  /** What a caller does after its first critical section. */
  datatype Entry =
    | Answer(err: Errors)
    | Await(channel: Option<nat>)
    | Own(own: nat, indexes: seq<nat>)

  /** `n` lowered flags. */
  function Lowered(n: nat): (r: seq<bool>)
    ensures |r| == n && forall i :: 0 <= i < n ==> !r[i]
  {
    seq(n, _ => false)
  }

  function EnterStart(sh: Shared, components: nat, channel: nat): (Shared, Entry) {
    match sh.phase
    case Running => (sh, Answer(sh.startErr))
    case Stopped => (sh, Answer(sh.startErr))
    case Starting => (sh, Await(sh.done))
    case Stopping => (sh, Await(sh.done))
    case Idle =>
      (Shared(Starting, Some(channel), [], [], [], sh.cleanupDone, Lowered(components), false, true),
       Own(channel, []))
  }

  function EnterShutdown(sh: Shared, channel: nat): (Shared, Entry) {
    match sh.phase
    case Stopped => (sh, Answer(sh.shutdownErr))
    case Starting => (sh.(stopReq := true), Await(sh.done))
    case Stopping => (sh, Await(sh.done))
    case _ =>
      (sh.(stopReq := true, phase := Stopping, done := Some(channel), started := Lowered(|sh.started|)),
       Own(channel, Indexes(sh.started)))
  }

  /** A component's Start succeeded: remember it, and learn whether a shutdown came meanwhile. */
  function RecordStarted(sh: Shared, i: nat): (Shared, bool) {
    (if i < |sh.started| then sh.(started := sh.started[i := true]) else sh, sh.stopReq)
  }

  /** Leave startup: take over every started component and move to stopping. */
  function BeginUnwind(sh: Shared): (Shared, seq<nat>) {
    (sh.(phase := Stopping, started := Lowered(|sh.started|)), Indexes(sh.started))
  }

  /** The last check of startup: run, or say why not. */
  function FinalGate(sh: Shared, components: nat, canceled: bool): (Shared, Option<Cause>) {
    if sh.stopReq then (sh, Some(Requested))
    else if canceled then (sh, Some(Aborted(components)))
    else (sh.(phase := Running), None)
  }

  function RecordCleanup(sh: Shared, errs: Errors): Shared {
    sh.(cleanupErr := errs, cleanupDone := true)
  }

  /** The terminal section of a failed, aborted or cancelled startup. */
  function SealStartup(sh: Shared, cause: Cause, stopErr: Errors, cleaned: Errors): Shared {
    sh.(startErr := cause.Errors() + stopErr + cleaned,
        shutdownErr := stopErr + (if cause.Requested? then cleaned else sh.cleanupErr),
        phase := Stopped,
        startCancel := false)
  }

  /** The terminal section of an ordered shutdown. */
  function SealShutdown(sh: Shared, stopErr: Errors): Shared {
    sh.(shutdownErr := stopErr + sh.cleanupErr,
        startErr := if sh.startErr == [] && sh.stopReq then [Canceled] else sh.startErr,
        phase := Stopped,
        startCancel := false)
  }
}
