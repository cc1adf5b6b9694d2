/** Start, stop and receive of one Live runtime, cut at its awaits: whatever stands between two awaits is one method. */
module LifecycleCoordinators {
  import opened Contracts

  datatype Terminal =
    | STARTUP_CLEANUP_CANCELLED
    | STOP_CONTROLLER_FAILED
    | TRANSPORT_OWNERSHIP_RELEASE_FAILED
    | STOP_SHUTDOWN_CANCELLED
    | STOP_EXECUTION_CLOSE_FAILED
    | STOP_TIMEOUT

  datatype LifecycleError =
    | LIVE_RUNTIME_RESTART_NOT_ADMITTED
    | LIVE_RUNTIME_NOT_STARTED
    | LIVE_RUNTIME_INVALID_SHUTDOWN_TIMEOUT
    | STARTUP_FAILED
    | CONTROLLER_STOP_FAILED
    | OWNERSHIP_RELEASE_FAILED
    | EXECUTION_CLOSE_FAILED
    | SHUTDOWN_CANCELLATION_FAILED
    | SHUTDOWN_DRAIN_TIMEOUT
    | CANCELLED
    | INTERRUPTED

  datatype Policy = Policy(gracefulTimeout: real, cancellationTimeout: real)

  /** Where a command is suspended. */
  datatype Await =
    | StartingExecution(policy: Policy)
    | CleaningUp(cause: LifecycleError)
    | ClosingExecution
    | Draining(closeFailed: bool)
    | CancellingReceives(closeFailed: bool)
    | DrainingAgain(closeFailed: bool)
  {
    predicate OfStart() {
      StartingExecution? || CleaningUp?
    }

    predicate WaitsForDrain() {
      Draining? || DrainingAgain?
    }
  }

  /** How an await ends. `Interrupted` is an exception that no handler catches; `finally` blocks run nevertheless. */
  datatype AwaitOutcome = Completed | Failed | Cancelled | TimedOut | Interrupted

  datatype Progress = Suspended(at: Await) | Returned | Raised(error: LifecycleError)

  /** How the synchronous calls into the controller, the bootstrap and the ownership callback end. */
  datatype Calls = Calls(prepares: bool, controllerStops: bool, releases: bool)

  /** The coordinator's fields; `holdsRelease` is whether the release callback is still there. */
  datatype Lifecycle = Lifecycle(
    started: bool, stopping: bool, activeReceives: nat, drained: bool, policy: Option<Policy>,
    technicalState: Option<Terminal>, holdsRelease: bool)

  const FRESH := Lifecycle(false, false, 0, true, None, None, true)

  predicate RestartAdmitted(life: Lifecycle) {
    !life.started && !life.stopping && life.technicalState.None?
  }

  function Terminated(life: Lifecycle, terminal: Terminal): Lifecycle {
    life.(started := false, stopping := true, technicalState := Some(terminal))
  }

  predicate ReleaseFails(life: Lifecycle, calls: Calls) {
    life.holdsRelease && !calls.releases
  }

  /** Stop the controller and give the transport back; ends with `progress` if both succeed. */
  function StoppedAndReleased(life: Lifecycle, calls: Calls, progress: Progress): (Lifecycle, Progress) {
    if !calls.controllerStops then (Terminated(life, STOP_CONTROLLER_FAILED), Raised(CONTROLLER_STOP_FAILED))
    else if ReleaseFails(life, calls) then
      (Terminated(life, TRANSPORT_OWNERSHIP_RELEASE_FAILED), Raised(OWNERSHIP_RELEASE_FAILED))
    else (life.(holdsRelease := false), progress)
  }

  function Started(life: Lifecycle, policy: Policy, calls: Calls): (Lifecycle, Progress) {
    if !RestartAdmitted(life) then (life, Raised(LIVE_RUNTIME_RESTART_NOT_ADMITTED))
    else if calls.prepares then (life, Suspended(StartingExecution(policy)))
    else StoppedAndReleased(life, calls, Raised(STARTUP_FAILED))
  }

  function StopRequested(life: Lifecycle, calls: Calls): (Lifecycle, Progress) {
    if !life.started then
      if life.technicalState.Some? then (life, Raised(LIVE_RUNTIME_RESTART_NOT_ADMITTED))
      else StoppedAndReleased(life, calls, Returned)
    else if InvalidTimeouts(life.policy) then (life, Raised(LIVE_RUNTIME_INVALID_SHUTDOWN_TIMEOUT))
    else (life.(stopping := true), Suspended(ClosingExecution))
  }

  /** The defaults, 10 and 5 seconds, are valid. */
  predicate InvalidTimeouts(policy: Option<Policy>) {
    policy.Some? && (policy.value.gracefulTimeout < 0.0 || policy.value.cancellationTimeout < 0.0)
  }

  /** The `finally` block of `stop` when neither a cancellation nor a timeout was recorded. */
  function Concluded(life: Lifecycle, closeFailed: bool, interrupted: bool, calls: Calls): (Lifecycle, Progress) {
    if !calls.controllerStops then (Terminated(life, STOP_CONTROLLER_FAILED), Raised(CONTROLLER_STOP_FAILED))
    else if closeFailed then
      (Terminated(life, STOP_EXECUTION_CLOSE_FAILED),
       Raised(if interrupted then INTERRUPTED else EXECUTION_CLOSE_FAILED))
    else if ReleaseFails(life, calls) then
      (Terminated(life, TRANSPORT_OWNERSHIP_RELEASE_FAILED), Raised(OWNERSHIP_RELEASE_FAILED))
    else
      (life.(started := false, stopping := false, technicalState := None, holdsRelease := false),
       if interrupted then Raised(INTERRUPTED) else Returned)
  }

  function Resumed(life: Lifecycle, at: Await, outcome: AwaitOutcome, calls: Calls): (Lifecycle, Progress) {
    match (at, outcome)
    case (StartingExecution(policy), Completed) =>
      (life.(started := true, stopping := false, policy := Some(policy), technicalState := None), Returned)
    case (StartingExecution(_), Interrupted) => (life, Raised(INTERRUPTED))
    case (StartingExecution(_), _) =>
      (life, Suspended(CleaningUp(if outcome == Cancelled then CANCELLED else STARTUP_FAILED)))
    case (CleaningUp(_), Cancelled) => (Terminated(life, STARTUP_CLEANUP_CANCELLED), Raised(CANCELLED))
    case (CleaningUp(_), Interrupted) => (life, Raised(INTERRUPTED))
    case (CleaningUp(cause), _) => StoppedAndReleased(life, calls, Raised(cause))
    case (_, Cancelled) => (Terminated(life, STOP_SHUTDOWN_CANCELLED), Raised(CANCELLED))
    case (ClosingExecution, Interrupted) => Concluded(life, false, true, calls)
    case (ClosingExecution, _) => (life, Suspended(Draining(outcome != Completed)))
    case (Draining(closeFailed), TimedOut) => (life, Suspended(CancellingReceives(closeFailed)))
    case (CancellingReceives(closeFailed), Completed) => (life, Suspended(DrainingAgain(closeFailed)))
    case (DrainingAgain(_), TimedOut) => (Terminated(life, STOP_TIMEOUT), Raised(SHUTDOWN_DRAIN_TIMEOUT))
    case (_, Interrupted) => Concluded(life, at.closeFailed, true, calls)
    case (CancellingReceives(_), _) => (Terminated(life, STOP_TIMEOUT), Raised(SHUTDOWN_CANCELLATION_FAILED))
    case (_, _) => Concluded(life, at.closeFailed, false, calls)
  }

  function ReceiveBegun(life: Lifecycle): Lifecycle {
    if !life.started || life.stopping then life
    else life.(activeReceives := life.activeReceives + 1, drained := false)
  }

  function ReceiveEnded(life: Lifecycle): Lifecycle
    requires life.activeReceives > 0
  {
    life.(activeReceives := life.activeReceives - 1, drained := life.drained || life.activeReceives == 1)
  }

  class LiveRuntimeLifecycleCoordinator {
    var started: bool
    var stopping: bool
    var activeReceives: nat
    var receivesDrained: bool
    var policy: Option<Policy>
    var technicalState: Option<Terminal>
    var holdsRelease: bool

    ghost function Value(): Lifecycle
      reads this
    {
      Lifecycle(started, stopping, activeReceives, receivesDrained, policy, technicalState, holdsRelease)
    }

    constructor ()
      ensures Value() == FRESH
    {
      started, stopping, activeReceives, receivesDrained := false, false, 0, true;
      policy, technicalState, holdsRelease := None, None, true;
    }

    /** The callback is dropped only after it has returned. */
    method ReleaseTransportOwnership(releases: bool) returns (ok: bool)
      modifies this`holdsRelease
      ensures ok == !(old(holdsRelease) && !releases)
      ensures holdsRelease == (old(holdsRelease) && !ok)
    {
      ok := true;
      if holdsRelease {
        ok := releases;
        if ok {
          holdsRelease := false;
        }
      }
    }

    method Terminate(terminal: Terminal)
      modifies this
      ensures Value() == Terminated(old(Value()), terminal)
    {
      started, stopping, technicalState := false, true, Some(terminal);
    }

    method StopAndRelease(calls: Calls, progress: Progress) returns (p: Progress)
      modifies this
      ensures (Value(), p) == StoppedAndReleased(old(Value()), calls, progress)
    {
      if !calls.controllerStops {
        Terminate(STOP_CONTROLLER_FAILED);
        return Raised(CONTROLLER_STOP_FAILED);
      }
      var ok := ReleaseTransportOwnership(calls.releases);
      if !ok {
        Terminate(TRANSPORT_OWNERSHIP_RELEASE_FAILED);
        return Raised(OWNERSHIP_RELEASE_FAILED);
      }
      return progress;
    }

    method Start(policy: Policy, calls: Calls) returns (p: Progress)
      modifies this
      ensures (Value(), p) == Started(old(Value()), policy, calls)
    {
      if started || stopping || technicalState.Some? { return Raised(LIVE_RUNTIME_RESTART_NOT_ADMITTED); }
      if calls.prepares { return Suspended(StartingExecution(policy)); }
      p := StopAndRelease(calls, Raised(STARTUP_FAILED));
    }

    /** After `start_execution`, and after the `close_execution` that follows its failure. */
    method ResumeStart(at: Await, outcome: AwaitOutcome, calls: Calls) returns (p: Progress)
      requires at.OfStart()
      modifies this
      ensures (Value(), p) == Resumed(old(Value()), at, outcome, calls)
    {
      if outcome == Interrupted { return Raised(INTERRUPTED); }
      match at {
        case StartingExecution(policy) =>
          if outcome != Completed {
            return Suspended(CleaningUp(if outcome == Cancelled then CANCELLED else STARTUP_FAILED));
          }
          this.started, this.stopping, this.policy, this.technicalState := true, false, Some(policy), None;
          return Returned;
        case CleaningUp(cause) =>
          if outcome == Cancelled {
            Terminate(STARTUP_CLEANUP_CANCELLED);
            return Raised(CANCELLED);
          }
          p := StopAndRelease(calls, Raised(cause));
      }
    }

    method Stop(calls: Calls) returns (p: Progress)
      modifies this
      ensures (Value(), p) == StopRequested(old(Value()), calls)
    {
      if !started {
        if technicalState.Some? { return Raised(LIVE_RUNTIME_RESTART_NOT_ADMITTED); }
        p := StopAndRelease(calls, Returned);
        return;
      }
      var graceful := if policy.Some? then policy.value.gracefulTimeout else 10.0;
      var cancellation := if policy.Some? then policy.value.cancellationTimeout else 5.0;
      if graceful < 0.0 || cancellation < 0.0 { return Raised(LIVE_RUNTIME_INVALID_SHUTDOWN_TIMEOUT); }
      stopping := true;
      return Suspended(ClosingExecution);
    }

    /** After each of the four awaits of `stop`: those that end the wait go on to the `finally` block. */
    method ResumeStop(at: Await, outcome: AwaitOutcome, calls: Calls) returns (p: Progress)
      requires !at.OfStart()
      modifies this
      ensures (Value(), p) == Resumed(old(Value()), at, outcome, calls)
    {
      if outcome == Cancelled {
        Terminate(STOP_SHUTDOWN_CANCELLED);
        return Raised(CANCELLED);
      }
      var closeFailed := !at.ClosingExecution? && at.closeFailed;
      if outcome != Interrupted {
        if at.ClosingExecution? { return Suspended(Draining(outcome != Completed)); }
        if at.Draining? && outcome == TimedOut { return Suspended(CancellingReceives(closeFailed)); }
        if at.CancellingReceives? && outcome == Completed { return Suspended(DrainingAgain(closeFailed)); }
        if at.CancellingReceives? {
          Terminate(STOP_TIMEOUT);
          return Raised(SHUTDOWN_CANCELLATION_FAILED);
        }
        if outcome == TimedOut {
          Terminate(STOP_TIMEOUT);
          return Raised(SHUTDOWN_DRAIN_TIMEOUT);
        }
      }
      started := false;
      if !calls.controllerStops {
        Terminate(STOP_CONTROLLER_FAILED);
        return Raised(CONTROLLER_STOP_FAILED);
      }
      if closeFailed {
        Terminate(STOP_EXECUTION_CLOSE_FAILED);
        return Raised(if outcome == Interrupted then INTERRUPTED else EXECUTION_CLOSE_FAILED);
      }
      var ok := ReleaseTransportOwnership(calls.releases);
      if !ok {
        Terminate(TRANSPORT_OWNERSHIP_RELEASE_FAILED);
        return Raised(OWNERSHIP_RELEASE_FAILED);
      }
      stopping, technicalState := false, None;
      return if outcome == Interrupted then Raised(INTERRUPTED) else Returned;
    }

    method BeginReceive() returns (p: Progress)
      modifies this
      ensures Value() == ReceiveBegun(old(Value()))
      ensures p == Raised(LIVE_RUNTIME_NOT_STARTED) <==> Value() == old(Value())
    {
      if !started || stopping { return Raised(LIVE_RUNTIME_NOT_STARTED); }
      activeReceives, receivesDrained := activeReceives + 1, false;
      return Returned;
    }

    method EndReceive()
      requires activeReceives > 0
      modifies this
      ensures Value() == ReceiveEnded(old(Value()))
    {
      activeReceives := activeReceives - 1;
      if activeReceives == 0 {
        receivesDrained := true;
      }
    }
  }

  // ----- who owns a transport -----

  /** The closure returned by `claim`: it only ever takes back its own claim. */
  function Released(owners: map<string, nat>, transport: string, token: nat): map<string, nat> {
    if transport in owners && owners[transport] == token then owners - {transport} else owners
  }

  class LiveExecutionTransportOwnershipRegistry {
    var owners: map<string, nat>

    constructor ()
      ensures owners == map[]
    {
      owners := map[];
    }

    method Claim(transport: string, token: nat) returns (claimed: bool)
      modifies this
      ensures claimed == (transport !in old(owners))
      ensures owners == if claimed then old(owners)[transport := token] else old(owners)
    {
      if transport in owners { return false; }
      owners := owners[transport := token];
      return true;
    }

    method Release(transport: string, token: nat)
      modifies this
      ensures owners == Released(old(owners), transport, token)
    {
      if transport in owners && owners[transport] == token {
        owners := owners - {transport};
      }
    }
  }
}
