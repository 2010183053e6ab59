/** The worker core: one object that owns the controller's state and steps it (`src/runtime/worker.rs`).
    Every method is proved to perform the machine action of the same name. */
module Worker {
  import opened Types
  import opened Clock
  import opened Cleanup
  import opened Command
  import opened Connection
  import opened Handshakes
  import opened Input
  import opened Lifecycle
  import M = Machine
  import opened Output
  import opened PeriodicPolicies
  import opened Readiness
  import Runs
  import opened Scheduler
  import opened Sender
  import opened Session
  import opened State
  import Status
  import opened Taps
  import opened Transport
  import WorldInvariant

  /** The precondition is the assertion that a step has produced no result before. */
  method RecordCommandProgress(p: M.Progress, progress: M.CommandProgress) returns (p': M.Progress)
    requires progress.Complete? ==> p.result.None?
    ensures p' == if progress.StillPending? then p else p.(result := Some(progress.result))
  {
    p' := p;
    if progress.StillPending? {
      return;
    }
    p' := p'.(result := Some(progress.result));
  }

  /** Splits a completed command into the result for its caller and the fault for the worker. */
  method RecordCommand(p: M.Progress, cp: M.CommandProgress)
    returns (p': M.Progress, fault: Option<WorkerCoreError>)
    requires cp.Complete? ==> p.result.None?
    ensures fault == if cp.Complete? then M.CommandFault(cp.result) else None
    ensures p' == if cp.Complete? then p.(result := Some(M.Reported(cp.result))) else p
  {
    match cp {
      case StillPending =>
        p', fault := p, None;
      case Complete(result) =>
        p' := RecordCommandProgress(p, M.Complete(M.Reported(result)));
        fault := M.CommandFault(result);
    }
  }

  method RecordOperation(p: M.Progress, error: M.OperationError)
    returns (p': M.Progress, fault: Option<WorkerCoreError>)
    ensures fault == M.OperationFault(error)
    ensures p' == p.(errors := p.errors + [M.ReportedOperation(error)])
  {
    fault := M.OperationFault(error);
    p' := p.(errors := p.errors + [M.ReportedOperation(error)]);
  }

  /** The shutdown request: made at any time by another thread, taken at most once by the worker. */
  datatype ShutdownState = Running | Requested(request: M.ShutdownRequest) | Taken

  class PriorityShutdown {
    var state: ShutdownState
    /** The latest request that was made and not refused, and how often the worker has looked for one. */
    ghost var latest: Option<M.ShutdownRequest>
    ghost var checks: nat

    /** A request that waits to be taken is the latest one. */
    ghost predicate Valid()
      reads this
    {
      && (state.Running? <==> latest.None?)
      && (state.Requested? ==> latest == Some(state.request))
    }

    constructor ()
      ensures Valid() && state.Running? && checks == 0
    {
      state := Running;
      latest, checks := None, 0;
    }

    /** A drop replaces an explicit request that has not been taken; nothing else replaces anything. */
    method Request(request: M.ShutdownRequest) returns (changed: bool)
      requires Valid()
      modifies this
      ensures Valid()
      ensures changed <==> old(state).Running?
                           || (old(state).Requested? && old(state).request.ExplicitShutdown? && request.DroppedShutdown?)
      ensures state == if changed then Requested(request) else old(state)
      ensures latest == (if changed then Some(request) else old(latest)) && checks == old(checks)
    {
      match (state, request) {
        case (Running, _) =>
          changed := true;
        case (Requested(ExplicitShutdown(_)), DroppedShutdown) =>
          changed := true;
        case _ =>
          changed := false;
      }
      if changed {
        state := Requested(request);
        latest := Some(request);
      }
    }

    /** Hands over a request once: one that was there before, or one that has just come from another thread. */
    method Take() returns (request: Option<M.ShutdownRequest>)
      requires Valid()
      modifies this
      ensures Valid() && checks == old(checks) + 1
      ensures request.Some? <==> state.Taken? && !old(state).Taken?
      ensures old(state).Requested? ==> request == Some(old(state).request)
      ensures request.Some? ==> request == latest
      ensures request.None? ==> state == old(state) && latest == old(latest)
    {
      checks := checks + 1;
      var requested: bool := *;
      if state.Running? && requested {
        var asynchronous: M.ShutdownRequest := *;
        var _ := Request(asynchronous);
      }
      match state {
        case Requested(taken) =>
          state := Taken;
          request := Some(taken);
        case _ =>
          request := None;
      }
    }
  }

  datatype WorkerStep =
    | Continue(progress: M.Progress)
    | ClosedStep(completion: CloseCompletion, interrupted: Option<WorkerCommandError>, progress: M.Progress)
    | FailedStep(error: WorkerCoreError, progress: M.Progress)

  datatype ConnectionWork = ConnectionWork(sessionId: U64, handshake: Handshake?, readiness: ReadinessGate)

  class WorkerCore {
    const mode: Mode
    const lifecycle: LifecycleStateMachine
    const input: InputStateStore
    const policy: PeriodicPolicy
    const sender: ReportSender
    const observed: ObservedSubcommands
    const sessions: ConnectionSessions
    const status: Status.StatusPublisher
    const port: TransportPort
    const pollBatches: nat
    var tap: Option<PendingTap>
    var connection: Option<ConnectionWork>
    var connectionCommandPending: Option<ConnectionCommandKind>
    var connected: bool

    /** The objects allocated while running: schedulers, handshakes and gates. */
    ghost var Owned: set<object>

    /** The objects that live as long as the worker. */
    ghost function Parts(): set<object> {
      {this, lifecycle, input, policy, sender, observed, observed.words, sessions, status, port}
    }

    ghost function Shake(): Handshake?
      reads this
    {
      if connection.Some? then connection.value.handshake else null
    }

    ghost function ConnectionRepr(): set<object>
      reads this, Shake()
    {
      if connection.None? then {}
      else {connection.value.readiness} + (if Shake() == null then {} else Shake().Repr())
    }

    /** One publisher is shared by the sender and the input store. */
    ghost predicate Wired() {
      sender.status == status && input.status == status && observed.Valid() && 0 < pollBatches
    }

    ghost predicate Valid()
      reads this, policy, Shake()
    {
      && Wired()
      && Parts() !! Owned
      && (policy.scheduler != null ==> policy.scheduler in Owned)
      && (connection.Some? ==> connection.value.readiness in Owned)
      && (Shake() != null ==> Shake() in Owned)
      && (Shake() != null && Shake().retry != null ==>
          Shake().retry in Owned && Shake().retry != policy.scheduler)
    }

    ghost function AttemptValue(work: ConnectionWork): M.Attempted
      reads work.readiness, work.handshake, if work.handshake == null then {} else work.handshake.Repr()
    {
      M.Attempted(work.sessionId, Readiness.Value(work.handshake), work.readiness.State())
    }

    ghost function Value(): M.Core
      reads Parts(), policy.Repr(), Shake(), ConnectionRepr()
      requires Wired()
    {
      M.Core(mode, lifecycle.state, input.committed, policy.Value(), tap, sender.Out(port), observed.State(),
             sessions.State(), if connection.None? then None else Some(AttemptValue(connection.value)),
             connectionCommandPending, connected)
    }

    /** The projection names the current session, and its counters are the sender's. */
    ghost predicate Published()
      reads sender, sessions, status
      requires Wired()
    {
      status.state.sessionId == sessions.current && sender.Mirrored()
    }

    constructor (mode: Mode, period: Period, pollBatches: nat, port: TransportPort)
      requires 0 < pollBatches && port.trace == []
      ensures Valid() && fresh(Parts() - {port}) && fresh(Owned) && this.port == port && this.pollBatches == pollBatches
      ensures Value() == M.NewCore(mode, period)
    {
      this.mode := mode;
      this.port := port;
      this.pollBatches := pollBatches;
      var publisher := new Status.StatusPublisher();
      publisher.SetLifecycle(LifecycleState.Open);
      status := publisher;
      lifecycle := new LifecycleStateMachine();
      input := new InputStateStore(publisher);
      policy := new PeriodicPolicy(period);
      sender := new ReportSender(publisher);
      observed := new ObservedSubcommands();
      sessions := new ConnectionSessions();
      tap, connection, connectionCommandPending, connected := None, None, None, false;
      Owned := {};
    }

    // ---- Completion of a connection command ----

    method CompleteConnectionCommand(p: M.Progress, result: CommandResult) returns (p': M.Progress)
      requires Valid() && (connectionCommandPending.Some? ==> p.result.None?)
      modifies this`connectionCommandPending
      ensures Valid()
      ensures (Value(), p') == M.CompleteConnection(old(Value()), p, result)
    {
      p' := p;
      if connectionCommandPending.Some? {
        connectionCommandPending := None;
        p' := RecordCommandProgress(p', M.Complete(result));
        p' := p'.(immediate := true);
      }
    }

    method CompleteConnectionFailure(p: M.Progress, failure: ConnectionCommandFailure) returns (p': M.Progress)
      requires Valid() && (connectionCommandPending.Some? ==> p.result.None?)
      modifies this`connectionCommandPending
      ensures Valid()
      ensures (Value(), p') == M.FailConnection(old(Value()), p, failure)
    {
      p' := p;
      if connectionCommandPending.None? {
        return;
      }
      var error := ConnectionRejected(connectionCommandPending.value, failure);
      p' := CompleteConnectionCommand(p', Err(error));
    }

    // ---- Sessions ----

    method StopReporting()
      requires Valid()
      modifies this`tap, policy
      ensures Valid()
      ensures Value() == M.StopReporting(old(Value()))
    {
      tap := None;
      policy.StopSession();
    }

    method EndCurrentSession()
      requires Valid()
      modifies this`connected, sessions
      ensures Valid()
      ensures Value() == old(Value()).(sessions := EndCurrent(old(Value()).sessions), connected := false)
    {
      if sessions.current.Some? {
        var _ := sessions.EndSession(sessions.current.value);
      }
      connected := false;
    }

    method PublishEnd(reason: Option<Byte>)
      requires Valid()
      modifies lifecycle, status
      ensures Valid()
      ensures Value() == M.EndLifecycle(old(Value()), reason)
    {
      var _ := lifecycle.MarkConnectionEnded();
      status.PublishEnd(lifecycle.state, reason);
    }

    /** The common end of a session: what disconnect and abort both do after the pending command is answered. */
    method LeaveSession(reason: Option<Byte>)
      requires Valid()
      modifies this`connected, this`tap, policy, sessions, lifecycle, status
      ensures Valid()
      ensures Value() == M.LeaveSession(old(Value()), reason)
    {
      EndCurrentSession();
      StopReporting();
      PublishEnd(reason);
    }

    method BeginSession() returns (id: U64)
      requires Valid() && Published()
      modifies sessions, sender, policy, observed, observed.words, input, status
      ensures Valid()
      ensures Value() == M.BeginSession(old(Value())) && id == sessions.lastIssued
    {
      if mode.Periodic? {
        id := sessions.BeginPeriodic(sender, policy, observed, input, port);
      } else {
        id := sessions.BeginDirect(sender, observed, input, port);
      }
    }

    method AttachAttempt(id: U64, operationDeadline: Duration)
      requires Valid()
      modifies this`connection, this`connected, this`Owned
      ensures Valid() && fresh(Owned - old(Owned))
      ensures Value() == M.AttachAttempt(old(Value()), id, operationDeadline)
    {
      var handshake := new Handshake(id, M.Condition(mode));
      var readiness := new ReadinessGate(id, operationDeadline);
      connection := Some(ConnectionWork(id, handshake, readiness));
      Owned := Owned + {handshake, readiness};
      connected := false;
    }

    method PublishSession(id: U64)
      requires Valid()
      modifies status
      ensures Valid()
      ensures Value() == M.PublishSession(old(Value()), id)
    {
      status.PublishSession(id, lifecycle.state, input.Snapshot());
    }

    method StartConnecting() returns (begun: bool)
      requires Valid()
      modifies lifecycle
      ensures Valid()
      ensures begun <==> old(lifecycle.state).Open?
      ensures Value() == if begun then old(Value()).(lifecycle := LifecycleState.Connecting) else old(Value())
    {
      begun := lifecycle.BeginConnection();
    }

    method BeginConnection(now: Duration, timeout: Duration) returns (r: Result<U64, WorkerCoreError>)
      requires Valid() && Published()
      modifies Parts(), Owned
      ensures Valid() && fresh(Owned - old(Owned))
      ensures r.Ok? <==> old(lifecycle.state).Open?
      ensures r.Err? ==> r.error == InvalidLifecycle
      ensures Value() == if r.Ok? then M.BeginConnection(old(Value()), now, timeout) else old(Value())
    {
      var operationDeadline := DeadlineAfter(now, timeout);
      var begun := StartConnecting();
      if !begun {
        return Err(InvalidLifecycle);
      }
      var id := BeginSession();
      AttachAttempt(id, operationDeadline);
      PublishSession(id);
      r := Ok(id);
    }

    // ---- Commands ----

    method StartOnTransport(kind: ConnectionCommandKind) returns (error: CallResult)
      requires Valid()
      modifies port
      ensures Valid()
      ensures Value() == M.WithCall(old(Value()), M.StartCall(kind, error))
    {
      match kind {
        case PairCommand => error := port.StartPairing();
        case ReconnectCommand => error := port.StartReconnect();
      }
    }

    method SetPending(kind: ConnectionCommandKind)
      requires Valid()
      modifies this`connectionCommandPending
      ensures Valid()
      ensures Value() == old(Value()).(pending := Some(kind))
    {
      connectionCommandPending := Some(kind);
    }

    method BeginCommand(p: M.Progress, kind: ConnectionCommandKind, timeout: Duration, now: Duration)
      returns (p': M.Progress, fault: Option<WorkerCoreError>)
      requires Valid() && Published() && p.result.None?
      modifies Parts(), Owned
      ensures Valid() && fresh(Owned - old(Owned))
      ensures M.Outcome(Value(), p', fault) == M.BeginCommand(old(Value()), p, kind, timeout, now)
    {
      p', fault := p, None;
      var begun := BeginConnection(now, timeout);
      if begun.Err? {
        p', fault := RecordCommand(p', M.Complete(Err(ConnectionRejected(kind, BeginFailed(begun.error)))));
        return;
      }
      SetPending(kind);
    }

    method Connect(p: M.Progress, kind: ConnectionCommandKind, timeout: Duration, since: Duration)
      returns (p': M.Progress, fault: Option<WorkerCoreError>, now: Duration, ghost error: CallResult)
      requires Valid() && Published() && p.result.None?
      modifies Parts(), Owned
      ensures Valid() && fresh(Owned - old(Owned)) && since <= now
      ensures M.Outcome(Value(), p', fault) == M.ConnectCommand(old(Value()), p, kind, timeout, error, now)
    {
      hide M.BeginCommand, M.CommandFault, M.Reported;
      p' := p.(commands := p.commands + 1);
      fault, now := None, since;
      var refused := StartOnTransport(kind);
      error := refused;
      if refused.Some? {
        p', fault := RecordCommand(
          p', M.Complete(Err(ConnectionRejected(kind, BeginFailed(TransportFailed(refused.value))))));
        return;
      }
      now := ReadClock(since);
      p', fault := BeginCommand(p', kind, timeout, now);
    }

    method CommitInput(state: InputState)
      requires Valid()
      modifies input, status
      ensures Valid() && Value() == M.CommitInput(old(Value()), state)
    {
      input.Commit(state);
    }

    method CommitCandidate(candidate: Result<InputState, InputError>) returns (cp: M.CommandProgress)
      requires Valid()
      modifies input, status
      ensures Valid() && (Value(), cp) == M.CommitCandidate(old(Value()), candidate)
    {
      match candidate {
        case Err(error) =>
          cp := M.Complete(Err(InputRejected(error)));
        case Ok(state) =>
          CommitInput(state);
          cp := M.Complete(Ok(()));
      }
    }

    method BeginPeriodicTap(plan: TapPlan, now: Duration)
      returns (cp: M.CommandProgress, ghost outcome: SendOutcome)
      requires Valid() && (lifecycle.state.Ready? ==> status.state.sessionId.Some?)
      modifies this`tap, input, sender, status, port
      ensures Valid() && (Value(), cp) == M.BeginPeriodicTap(old(Value()), plan, now, outcome)
    {
      hide CommitAndSend, PeriodicPress;
      var begun;
      begun, outcome := Taps.BeginPeriodicTap(lifecycle.state.Ready?, plan, now, input, sender, port);
      match begun {
        case Ok(pressed) =>
          tap := Some(pressed);
          cp := M.StillPending;
        case Err(error) =>
          cp := M.Complete(Err(PeriodicRejected(error)));
      }
    }

    method HandlePeriodicCommand(command: InputCommand, now: Duration)
      returns (cp: M.CommandProgress, ghost outcome: SendOutcome)
      requires Valid() && (lifecycle.state.Ready? ==> status.state.sessionId.Some?)
      modifies this`tap, input, sender, status, port
      ensures Valid() && (Value(), cp) == M.PeriodicInput(old(Value()), command, now, outcome)
    {
      hide M.BeginPeriodicTap, M.CommitInput, M.CommitCandidate;
      outcome := Accepted;
      match command {
        case Candidate(state) =>
          CommitInput(state);
          cp := M.Complete(Ok(()));
        case Press(buttons) =>
          var candidate := PressCandidate(input.Snapshot(), buttons);
          cp := CommitCandidate(candidate);
        case Release(buttons) =>
          var candidate := ReleaseCandidate(input.Snapshot(), buttons);
          cp := CommitCandidate(candidate);
        case Neutral =>
          CommitInput(NEUTRAL);
          cp := M.Complete(Ok(()));
        case Tap(buttons, duration) =>
          var plan := PlanTap(input.Snapshot(), buttons, duration);
          if plan.Err? {
            cp := M.Complete(Err(InputRejected(plan.error)));
          } else {
            cp, outcome := BeginPeriodicTap(plan.value, now);
          }
      }
    }

    method SendDirect(candidate: InputState, now: Duration) returns (cp: M.CommandProgress, ghost outcome: SendOutcome)
      requires Valid() && status.state.sessionId.Some?
      modifies input, sender, status, port
      ensures Valid() && (Value(), cp) == M.DirectSend(old(Value()), candidate, now, outcome)
    {
      hide SendThenCommit;
      var sent := Taps.SendDirect(candidate, ProtocolTimestamp(now), input, sender, port);
      outcome := sent;
      cp := M.Complete(if sent.Accepted? then Ok(()) else Err(DirectRejected(DirectTransport(sent.kind))));
    }

    method SendDirectCandidate(candidate: Result<InputState, InputError>, now: Duration)
      returns (cp: M.CommandProgress, ghost outcome: SendOutcome)
      requires Valid() && status.state.sessionId.Some?
      modifies input, sender, status, port
      ensures Valid() && (Value(), cp) == M.DirectCandidate(old(Value()), candidate, now, outcome)
    {
      hide M.DirectSend;
      outcome := Accepted;
      match candidate {
        case Err(error) =>
          cp := M.Complete(Err(InputRejected(error)));
        case Ok(state) =>
          cp, outcome := SendDirect(state, now);
      }
    }

    method BeginDirectTap(plan: TapPlan, now: Duration) returns (cp: M.CommandProgress, ghost outcome: SendOutcome)
      requires Valid() && status.state.sessionId.Some?
      modifies this`tap, input, sender, status, port
      ensures Valid() && (Value(), cp) == M.BeginDirectTap(old(Value()), plan, now, outcome)
    {
      hide SendThenCommit;
      var begun;
      begun, outcome := Taps.BeginDirectTap(plan, now, input, sender, port);
      match begun {
        case Ok(pressed) =>
          tap := Some(pressed);
          cp := M.StillPending;
        case Err(error) =>
          cp := M.Complete(Err(DirectRejected(error)));
      }
    }

    method HandleDirectCommand(command: InputCommand, now: Duration)
      returns (cp: M.CommandProgress, ghost outcome: SendOutcome)
      requires Valid() && (lifecycle.state.Ready? ==> status.state.sessionId.Some?)
      modifies this`tap, input, sender, status, port
      ensures Valid() && (Value(), cp) == M.DirectInput(old(Value()), command, now, outcome)
    {
      hide M.DirectSend, M.DirectCandidate, M.BeginDirectTap;
      outcome := Accepted;
      if !lifecycle.state.Ready? {
        return M.Complete(Err(DirectRejected(DirectNotReady))), outcome;
      }
      match command {
        case Candidate(state) =>
          cp, outcome := SendDirect(state, now);
        case Press(buttons) =>
          var candidate := PressCandidate(input.Snapshot(), buttons);
          cp, outcome := SendDirectCandidate(candidate, now);
        case Release(buttons) =>
          var candidate := ReleaseCandidate(input.Snapshot(), buttons);
          cp, outcome := SendDirectCandidate(candidate, now);
        case Neutral =>
          cp, outcome := SendDirect(NEUTRAL, now);
        case Tap(buttons, duration) =>
          var plan := PlanTap(input.Snapshot(), buttons, duration);
          if plan.Err? {
            cp := M.Complete(Err(InputRejected(plan.error)));
          } else {
            cp, outcome := BeginDirectTap(plan.value, now);
          }
      }
    }

    method HandleCommand(command: InputCommand, since: Duration)
      returns (cp: M.CommandProgress, now: Duration, ghost outcome: SendOutcome)
      requires Valid() && (lifecycle.state.Ready? ==> status.state.sessionId.Some?)
      modifies this`tap, input, sender, status, port
      ensures Valid() && since <= now
      ensures (Value(), cp) == M.HandleCommand(old(Value()), command, now, outcome)
    {
      hide M.PeriodicInput, M.DirectInput;
      outcome, now := Accepted, since;
      var refused := lifecycle.EnsureInputCommand();
      if refused.Some? {
        return M.Complete(Err(LifecycleRejected(refused.value))), now, outcome;
      }
      now := ReadClock(since);
      if mode.Periodic? {
        cp, outcome := HandlePeriodicCommand(command, now);
      } else {
        cp, outcome := HandleDirectCommand(command, now);
      }
    }

    method HandleInput(p: M.Progress, command: InputCommand, since: Duration)
      returns (p': M.Progress, fault: Option<WorkerCoreError>, now: Duration, ghost outcome: SendOutcome)
      requires Valid() && (lifecycle.state.Ready? ==> status.state.sessionId.Some?) && p.result.None?
      modifies this`tap, input, sender, status, port
      ensures Valid() && since <= now
      ensures M.Outcome(Value(), p', fault) == M.InputStep(old(Value()), p, command, now, outcome)
    {
      hide M.HandleCommand, M.CommandFault, M.Reported;
      p' := p.(commands := p.commands + 1);
      var cp;
      cp, now, outcome := HandleCommand(command, since);
      p', fault := RecordCommand(p', cp);
    }

    // ---- Transport events ----

    method ObserveTopology(event: TransportEvent)
      requires Valid() && (event.LinkConnected? || event.HidChannelOpened?)
      modifies Shake()
      ensures Valid() && Value() == M.ObserveTopology(old(Value()), event)
    {
      if connection.Some? && connection.value.handshake != null {
        match event {
          case LinkConnected => connection.value.handshake.ObserveLink(connection.value.sessionId);
          case HidChannelOpened(channel) => connection.value.handshake.ObserveChannel(connection.value.sessionId, channel);
        }
      }
    }

    method MarkConnected()
      requires Valid()
      modifies this`connected, status
      ensures Valid() && Value() == M.MarkConnected(old(Value()))
    {
      connected := true;
      status.SetConnected(true);
    }

    method RecordCompletion(p: M.Progress, completion: OutputCompletion, now: Duration)
      returns (p': M.Progress, fault: Option<WorkerCoreError>)
      requires Valid()
      modifies policy
      ensures Valid() && M.Outcome(Value(), p', fault) == M.RecordOutput(old(Value()), p, completion, now)
    {
      p', fault := p, None;
      if mode.Periodic? {
        var error := policy.RecordOutputCompletion(now, completion == Ok(ReplyAccepted));
        if error.Some? {
          p', fault := RecordOperation(p', M.PeriodicFailed(PeriodicScheduler(error.value)));
        }
      }
      if completion.Err? {
        p', fault := RecordOperation(p', M.OutputFailed(completion.error));
      }
    }

    method ReplyToOutput(raw: seq<Byte>) returns (completion: OutputCompletion, ghost outcome: SendOutcome)
      requires Valid() && status.state.sessionId.Some?
      modifies observed, observed.words, sender, status, port
      ensures Valid() && (Value(), completion) == M.ReplyToOutput(old(Value()), raw, outcome)
    {
      hide HandleOutput;
      completion, outcome := HandleOutputReport(raw, input.Snapshot(), observed, sender, port);
    }

    method HandleOutputEvent(p: M.Progress, raw: seq<Byte>, since: Duration)
      returns (p': M.Progress, fault: Option<WorkerCoreError>, now: Duration, ghost outcome: SendOutcome)
      requires Valid() && status.state.sessionId.Some?
      modifies observed, observed.words, sender, status, port, policy
      ensures Valid() && since <= now
      ensures M.Outcome(Value(), p', fault) == M.OutputEvent(old(Value()), p, raw, now, outcome)
    {
      hide M.ReplyToOutput, M.RecordOutput;
      var completion;
      completion, outcome := ReplyToOutput(raw);
      now := ReadClock(since);
      p', fault := RecordCompletion(p, completion, now);
    }

    /** Takes the tap a disconnect interrupts, answering its command. */
    method InterruptTap(p: M.Progress, reason: Option<Byte>) returns (p': M.Progress)
      requires Valid() && (tap.Some? ==> p.result.None?)
      modifies this`tap
      ensures Valid() && (Value(), p') == M.InterruptTap(old(Value()), p, reason)
    {
      p' := p;
      if tap.Some? {
        tap := None;
        p' := RecordCommandProgress(p', M.Complete(Err(M.TapInterruptedBy(mode, TapDisconnected(reason)))));
        p' := p'.(immediate := true);
      }
    }

    method DropConnection()
      requires Valid()
      modifies this`connection
      ensures Valid() && Value() == old(Value()).(connection := None)
    {
      connection := None;
    }

    /** Ends a connection attempt: its command fails with the error, and the session is over. */
    method LoseConnection(p: M.Progress, error: ReadinessError, reason: Option<Byte>) returns (p': M.Progress)
      requires Valid() && (connectionCommandPending.Some? ==> p.result.None?)
      modifies this, policy, sessions, lifecycle, status
      ensures Valid() && Owned == old(Owned)
      ensures (Value(), p') == M.LoseConnection(old(Value()), p, error, reason)
    {
      hide M.FailConnection, M.LeaveSession;
      DropConnection();
      p' := CompleteConnectionFailure(p, ReadinessFailed(error));
      p' := p'.(errors := p'.errors + [M.ReadinessLost]);
      LeaveSession(reason);
    }

    method EndConnection(p: M.Progress, reason: Option<Byte>) returns (p': M.Progress)
      requires Valid() && (connectionCommandPending.Some? || tap.Some? ==> p.result.None?)
      requires connectionCommandPending.None? || tap.None?
      modifies this, policy, sessions, lifecycle, status
      ensures Valid() && Owned == old(Owned)
      ensures (Value(), p') == M.DisconnectEvent(old(Value()), p, reason)
    {
      hide M.LoseConnection, M.LeaveSession;
      p' := InterruptTap(p, reason);
      if connection.Some? {
        p' := LoseConnection(p', ConnectionLost(reason), reason);
      } else {
        LeaveSession(reason);
      }
    }

    method HandleEvent(p: M.Progress, event: SessionEvent, since: Duration)
      returns (p': M.Progress, fault: Option<WorkerCoreError>, topologyChanged: bool, now: Duration,
               ghost outcome: SendOutcome)
      requires Valid() && Published()
      requires connectionCommandPending.Some? || tap.Some? ==> p.result.None?
      requires connectionCommandPending.None? || tap.None?
      modifies Parts(), Owned
      ensures Valid() && Owned == old(Owned) && since <= now
      ensures M.Outcome(Value(), p', fault) == M.HandleEvent(old(Value()), p, event, now, outcome)
      ensures topologyChanged <==> M.ChangesTopology(old(Value()), event)
    {
      hide M.ObserveTopology, M.OutputEvent, M.DisconnectEvent;
      p', fault, topologyChanged, now, outcome := p, None, false, since, Accepted;
      var taken := sessions.TakeCurrent(event);
      if taken.None? {
        return;
      }
      match taken.value {
        case LinkConnected =>
          MarkConnected();
          ObserveTopology(taken.value);
          topologyChanged := true;
        case HidChannelOpened(_) =>
          ObserveTopology(taken.value);
          topologyChanged := true;
        case HidOutput(raw) =>
          p', fault, now, outcome := HandleOutputEvent(p, raw, since);
        case LinkDisconnected(reason) =>
          p' := EndConnection(p, reason);
      }
    }

    // ---- Driving a connection attempt ----

    method StepHandshake(now: Duration)
      returns (r: Result<HandshakeProgress, SchedulerError>, ghost outcome: SendOutcome)
      requires Valid() && Shake() != null && status.state.sessionId.Some?
      modifies this`Owned, Owned, sender, status, port
      ensures Valid() && fresh(Owned - old(Owned))
      ensures (Value(), r) == M.StepHandshake(old(Value()), now, outcome)
    {
      hide StepShake;
      var handshake := connection.value.handshake;
      r, outcome := handshake.Step(connection.value.sessionId, now, observed, sender, port);
      if handshake.retry != null {
        Owned := Owned + {handshake.retry};
      }
    }

    method DriveHandshake(p: M.Progress, now: Duration)
      returns (p': M.Progress, fault: Option<WorkerCoreError>, ghost outcome: SendOutcome)
      requires Valid() && connection.Some? && status.state.sessionId.Some?
      modifies this`Owned, Owned, sender, status, port
      ensures Valid() && fresh(Owned - old(Owned))
      ensures M.Outcome(Value(), p', fault) == M.DriveHandshake(old(Value()), p, now, outcome)
      ensures p'.result == p.result
    {
      hide M.StepHandshake;
      p', fault, outcome := p, None, Accepted;
      if connection.value.handshake != null {
        var r;
        r, outcome := StepHandshake(now);
        fault := M.HandshakeFault(r);
        if r.Ok? {
          p' := M.NoteHandshake(p, r.value);
        }
      }
    }

    method EvaluateForPeriodic(now: Duration) returns (r: Result<ReadinessProgress, ReadinessError>)
      requires Valid() && connection.Some?
      modifies this`Owned, this`connection, Owned, policy
      ensures Valid() && fresh(Owned - old(Owned))
      ensures (Value(), r) == M.EvaluateForPeriodic(old(Value()), now)
    {
      hide EvaluatePeriodic;
      var work := connection.value;
      var kept;
      kept, r := work.readiness.EvaluateForPeriodic(now, sessions, work.handshake, sender, policy);
      connection := Some(work.(handshake := kept));
      if policy.scheduler != null {
        Owned := Owned + {policy.scheduler};
      }
    }

    method EvaluateForDirect(now: Duration) returns (r: Result<ReadinessProgress, ReadinessError>)
      requires Valid() && connection.Some?
      modifies this`connection, Owned
      ensures Valid()
      ensures (Value(), r) == M.EvaluateForDirect(old(Value()), now)
    {
      hide EvaluateDirect;
      var work := connection.value;
      var kept;
      kept, r := work.readiness.EvaluateForDirect(now, sessions, work.handshake, sender, policy.Value());
      connection := Some(work.(handshake := kept));
    }

    method EvaluateReadiness(now: Duration) returns (r: Result<ReadinessProgress, ReadinessError>)
      requires Valid() && connection.Some?
      modifies this`Owned, this`connection, Owned, policy
      ensures Valid() && fresh(Owned - old(Owned))
      ensures (Value(), r) == M.EvaluateReadiness(old(Value()), now)
    {
      hide M.EvaluateForPeriodic, M.EvaluateForDirect;
      if mode.Periodic? {
        r := EvaluateForPeriodic(now);
      } else {
        r := EvaluateForDirect(now);
      }
    }

    method BecomeReady() returns (marked: bool)
      requires Valid()
      modifies this`connection, lifecycle, status
      ensures Valid() && (marked <==> old(lifecycle.state).Connecting?)
      ensures Value() == if marked then M.BecomeReady(old(Value())) else old(Value())
    {
      marked := lifecycle.MarkReady();
      if marked {
        connection := None;
        status.SetLifecycle(lifecycle.state);
      }
    }

    method SettleReadiness(p: M.Progress, now: Duration) returns (p': M.Progress, fault: Option<WorkerCoreError>)
      requires Valid() && connection.Some?
      requires connectionCommandPending.Some? ==> p.result.None?
      modifies Parts(), Owned
      ensures Valid() && fresh(Owned - old(Owned))
      ensures M.Outcome(Value(), p', fault) == M.SettleReadiness(old(Value()), p, now)
    {
      hide M.EvaluateReadiness, M.BecomeReady, M.LoseConnection, M.CompleteConnection;
      p', fault := p, None;
      var sessionId := connection.value.sessionId;
      var r := EvaluateReadiness(now);
      match r {
        case Ok(Pending(_)) =>
        case Ok(ReadyFor(ready)) =>
          if ready != sessionId {
            return p', Some(InvalidLifecycle);
          }
          var marked := BecomeReady();
          if !marked {
            return p', Some(InvalidLifecycle);
          }
          p' := CompleteConnectionCommand(p', Ok(()));
        case Err(error) =>
          p' := LoseConnection(p', error, None);
      }
    }

    method DriveConnection(p: M.Progress, now: Duration)
      returns (p': M.Progress, fault: Option<WorkerCoreError>, ghost outcome: SendOutcome)
      requires Valid() && Published()
      requires connectionCommandPending.Some? ==> p.result.None?
      modifies Parts(), Owned
      ensures Valid() && fresh(Owned - old(Owned))
      ensures M.Outcome(Value(), p', fault) == M.Drive(old(Value()), p, now, outcome)
    {
      hide M.DriveHandshake, M.SettleReadiness, M.LoseConnection;
      p', fault, outcome := p, None, Accepted;
      if connection.None? {
        return;
      }
      var inactive := connection.value.readiness.EnsureActive(now, sessions);
      if inactive.Some? {
        p' := LoseConnection(p', inactive.value, None);
        return;
      }
      p', fault, outcome := DriveHandshake(p', now);
      if fault.None? {
        p', fault := SettleReadiness(p', now);
      }
    }

    // ---- Due work ----

    method DueAllowed() returns (allowed: bool)
      requires Valid()
      ensures allowed <==> M.DueAllowed(Value())
    {
      var automatic := policy.NextDeadline();
      allowed := lifecycle.state.Ready? || (lifecycle.state.Connecting? && mode.Periodic? && automatic.Some?);
    }

    method ReleasePeriodicTap(now: Duration) returns (cp: M.CommandProgress, ghost outcome: SendOutcome)
      requires Valid() && tap.Some? && status.state.sessionId.Some?
      modifies this`tap, input, sender, status, port
      ensures Valid() && (Value(), cp) == M.ReleasePeriodicTap(old(Value()), now, outcome)
    {
      hide CommitAndSend, PeriodicRelease;
      var pending := tap.value;
      tap := None;
      var r;
      r, outcome := FinishPeriodicTap(pending, now, input, sender, port);
      cp := M.Complete(match r case Ok(_) => Ok(()) case Err(error) => Err(PeriodicRejected(error)));
    }

    method TakeTap() returns (taken: Option<PendingTap>)
      requires Valid()
      modifies this`tap
      ensures Valid() && Value() == old(Value()).(tap := None) && taken == old(tap)
    {
      taken := tap;
      tap := None;
    }

    method FinishTap(p: M.Progress, now: Duration)
      returns (p': M.Progress, fault: Option<WorkerCoreError>, ghost outcome: SendOutcome)
      requires Valid() && tap.Some? && status.state.sessionId.Some? && p.result.None?
      modifies this`tap, input, sender, status, port
      ensures Valid() && M.Outcome(Value(), p', fault) == M.FinishTap(old(Value()), p, now, outcome)
    {
      hide M.ReleasePeriodicTap, M.DirectSend, M.CommandFault, M.Reported;
      p' := p.(immediate := true);
      var cp;
      if mode.Periodic? {
        cp, outcome := ReleasePeriodicTap(now);
      } else {
        var taken := TakeTap();
        cp, outcome := SendDirect(taken.value.released, now);
      }
      p', fault := RecordCommand(p', cp);
    }

    method SendAutomatic(now: Duration)
      returns (r: Result<AutomaticInput, PeriodicError>, ghost capacity: bool, ghost outcome: SendOutcome)
      requires Valid() && status.state.sessionId.Some?
      modifies Owned, sender, status, port
      ensures Valid() && (Value(), r) == M.SendAutomatic(old(Value()), now, capacity, outcome)
    {
      hide SendDue;
      r, capacity, outcome := policy.SendIfDue(now, input, sender, port);
    }

    method RunDue(p: M.Progress, now: Duration)
      returns (p': M.Progress, fault: Option<WorkerCoreError>, ghost capacity: bool, ghost outcome: SendOutcome)
      requires Valid() && status.state.sessionId.Some? && (tap.Some? ==> p.result.None?)
      modifies this`tap, Owned, input, sender, status, port
      ensures Valid() && M.Outcome(Value(), p', fault) == M.RunDue(old(Value()), p, now, capacity, outcome)
    {
      hide M.FinishTap, M.SendAutomatic, M.OperationFault, M.ReportedOperation;
      p', fault, capacity, outcome := p, None, false, Accepted;
      if tap.Some? && tap.value.releaseAt <= now {
        p', fault, outcome := FinishTap(p, now);
        return;
      }
      if mode.Periodic? {
        var r;
        r, capacity, outcome := SendAutomatic(now);
        if r.Err? {
          p', fault := RecordOperation(p', M.PeriodicFailed(r.error));
        }
      }
    }

    method NextDeadline() returns (deadline: Option<Duration>)
      requires Valid()
      ensures deadline == M.NextDeadline(Value())
    {
      deadline := policy.NextDeadline();
      if deadline.None? {
        deadline := policy.replyHoldoffUntil;
      }
      deadline := MinimumDeadline(deadline, if tap.Some? then Some(tap.value.releaseAt) else None);
      if connection.Some? {
        deadline := MinimumDeadline(deadline, Some(connection.value.readiness.operationDeadline));
        var retry: Option<Duration> := None;
        if connection.value.handshake != null {
          retry := connection.value.handshake.NextDeadline();
        }
        deadline := MinimumDeadline(deadline, retry);
      }
    }

    // ---- Ends of a run ----

    method RunCleanup(plan: CleanupPlan, now: Duration, publish: bool)
      returns (completion: CloseCompletion, ghost answers: CleanupAnswers)
      requires Valid() && (SendsNeutral(plan, connected) ==> status.state.sessionId.Some?)
      modifies lifecycle, sender, status, port
      ensures Valid() && Value() == M.RunCleanupOn(old(Value()), plan, now, publish, answers)
      ensures completion == M.CleanupCompletion(old(Value()), plan, answers)
    {
      hide Cleanup.RunCleanup, EarliestFailure;
      completion, answers := Cleanup.Run(plan, connected, ProtocolTimestamp(now), lifecycle, sender, publish, port);
    }

    method CleanUp(plan: CleanupPlan, now: Duration, publish: bool)
      returns (completion: CloseCompletion, ghost answers: CleanupAnswers)
      requires Valid() && (SendsNeutral(plan, connected) ==> status.state.sessionId.Some?)
      modifies this`connected, this`connection, lifecycle, sessions, sender, status, port
      ensures Valid() && Value() == M.CleanUp(old(Value()), plan, now, publish, answers)
      ensures completion == M.CleanupCompletion(old(Value()), plan, answers)
    {
      hide M.RunCleanupOn;
      completion, answers := RunCleanup(plan, now, publish);
      DropConnection();
      EndCurrentSession();
    }

    method PublishClosed()
      requires Valid()
      modifies status
      ensures Valid() && Value() == M.PublishClosed(old(Value()))
    {
      status.PublishClose();
    }

    /** Answers a pending connection command, and takes a pending tap's answer. */
    method CancelForShutdown(p: M.Progress) returns (p': M.Progress, interrupted: Option<WorkerCommandError>)
      requires Valid() && (connectionCommandPending.Some? ==> p.result.None?)
      modifies this`connectionCommandPending, this`tap, policy
      ensures Valid() && interrupted == M.InterruptedTap(old(Value()))
      ensures var (c, q) := M.CompleteConnection(old(Value()), p, Err(ShutdownInterrupted));
              Value() == M.StopReporting(c) && p' == q
    {
      p' := CompleteConnectionCommand(p, Err(ShutdownInterrupted));
      interrupted := if tap.Some? then Some(M.TapInterruptedBy(mode, TapShutdown)) else None;
      StopReporting();
    }

    method CloseFor(p: M.Progress, request: M.ShutdownRequest, now: Duration)
      returns (p': M.Progress, completion: CloseCompletion, interrupted: Option<WorkerCommandError>,
               ghost answers: CleanupAnswers)
      requires Valid() && (connected ==> status.state.sessionId.Some?)
      requires connectionCommandPending.Some? ==> p.result.None?
      modifies Parts(), Owned
      ensures Valid() && Owned == old(Owned)
      ensures (Value(), p') == M.CloseWorker(old(Value()), p, request, now, answers)
      ensures interrupted == M.InterruptedTap(old(Value()))
      ensures completion == M.CleanupCompletion(old(Value()), M.ShutdownPlan(request), answers)
    {
      hide M.CompleteConnection, M.StopReporting, M.CleanUp, M.PublishClosed, M.InterruptedTap;
      p', interrupted := CancelForShutdown(p);
      completion, answers := CleanUp(M.ShutdownPlan(request), now, true);
      PublishClosed();
    }

    method MarkFailed(error: WorkerCoreError)
      requires Valid()
      modifies this`connected, lifecycle, status
      ensures Valid() && Value() == M.MarkFailed(old(Value()), error)
    {
      lifecycle.MarkFailed();
      connected := false;
      status.PublishFailure(M.FailureMessage(error));
    }

    method FailWith(p: M.Progress, error: WorkerCoreError) returns (p': M.Progress)
      requires Valid() && (connectionCommandPending.Some? ==> p.result.None?)
      modifies this, lifecycle, status
      ensures Valid() && Owned == old(Owned)
      ensures (Value(), p') == M.FailWorker(old(Value()), p, error)
    {
      hide M.FailConnection, M.MarkFailed;
      var failure := if error == TransportFailed(InvalidKeyStore) then KeyStoreInvalid else WorkerHasFailed;
      p' := CompleteConnectionFailure(p, failure);
      MarkFailed(error);
    }

    method CleanUpAfterFailure(now: Duration)
      returns (completion: CloseCompletion, ghost answers: CleanupAnswers)
      requires Valid()
      modifies this, policy, lifecycle, sessions, sender, status, port
      ensures Valid() && Owned == old(Owned)
      ensures Value() == M.CleanUpAfterFailure(old(Value()), now, answers)
      ensures completion == M.CleanupCompletion(old(Value()), ClosePlan(WithoutNeutral), answers)
    {
      hide M.CleanUp;
      StopReporting();
      completion, answers := CleanUp(ClosePlan(WithoutNeutral), now, false);
    }

    method PublishFailure(message: Status.FailureMessage)
      requires Valid()
      modifies status
      ensures Valid()
      ensures Value() == old(Value()).(out := old(Value()).out.(status := Status.Fail(old(Value()).out.status, message)))
    {
      status.PublishFailure(message);
    }

    // ---- One step ----

    /** The run so far has reached this worker's value, with this progress and clock reading. */
    ghost predicate At(t: Runs.Run, p: M.Progress, now: Duration)
      reads Parts(), policy.Repr(), Shake(), ConnectionRepr()
      requires Wired()
    {
      && t.worlds != [] && WorldInvariant.Sound(t)
      && t.Last().core == Value() && t.Last().progress == p && t.Last().time == now && t.Last().budget == pollBatches
    }

    /** What a live run guarantees to the methods of a step. */
    lemma LiveFacts(t: Runs.Run, p: M.Progress, now: Duration)
      requires Valid() && At(t, p, now) && WorldInvariant.Alive(t.Last().phase)
      ensures Published()
      ensures connectionCommandPending.Some? || tap.Some? ==> p.result.None?
      ensures connectionCommandPending.None? || tap.None?
      ensures lifecycle.state.Ready? || lifecycle.state.Connecting? ==> status.state.sessionId.Some?
      ensures connected ==> status.state.sessionId.Some?
      ensures t.Last().fault.Some? <==> t.Last().phase.Stopping?
      ensures t.Last().channel.inFlight <==> Value().HasPending() || p.result.Some?
    {
    }

    /** How a step that ended left the run. */
    ghost predicate Concluded(step: WorkerStep, t: Runs.Run, now: Duration)
      reads Parts(), policy.Repr(), Shake(), ConnectionRepr()
      requires Wired()
    {
      && At(t, step.progress, now)
      && match step
         case Continue(_) => t.Last().phase.Delivering?
         case ClosedStep(completion, interrupted, _) =>
           t.Last().phase.ClosedDown? && t.Last().interrupted == interrupted && ClosedWith(completion, t)
         case FailedStep(error, _) => t.Last().phase.Broken? && t.Last().fault == Some(error)
    }

    /** The completion reports the cleanup that the last action of the run performed. */
    static ghost predicate ClosedWith(completion: CloseCompletion, t: Runs.Run) {
      && 0 < |t.actions| && |t.worlds| == |t.actions| + 1 && t.actions[|t.actions| - 1].Shutdown?
      && var last := t.actions[|t.actions| - 1];
         completion == M.CleanupCompletion(t.worlds[|t.actions| - 1].core, M.ShutdownPlan(last.request), last.answers)
    }

    /** The run has just closed on this request. */
    static ghost predicate ClosedOn(request: M.ShutdownRequest, t: Runs.Run) {
      && 0 < |t.actions| && t.actions[|t.actions| - 1].Shutdown?
      && t.actions[|t.actions| - 1].request == request
    }

    /** The worker has looked for a shutdown as often as the run's actions ask for, and it has taken a request if and
        only if the run has closed, on the latest one. */
    static ghost predicate Synced(shutdown: PriorityShutdown, t: Runs.Run)
      reads shutdown
    {
      && t.worlds != [] && shutdown.Valid() && shutdown.checks == t.Last().checks
      && (shutdown.state.Taken? <==> t.Last().phase.ClosedDown?)
      && (t.Last().phase.ClosedDown? ==> ClosedOn(shutdown.latest.value, t))
    }

    /** The run's last action asks for a check that has not been made yet. */
    static ghost predicate Awaited(shutdown: PriorityShutdown, t: Runs.Run)
      reads shutdown
    {
      t.worlds != [] && shutdown.Valid() && !shutdown.state.Taken? && t.Last().checks == shutdown.checks + 1
    }

    static lemma ShutdownEnds(t: Runs.Run, t': Runs.Run, request: M.ShutdownRequest, now: Duration, answers: CleanupAnswers)
      requires t.worlds != [] && t'.worlds != [] && WorldInvariant.Sound(t)
      requires t' == t.Then(Runs.Shutdown(request, now, answers), t'.Last())
      ensures ClosedOn(request, t')
      ensures ClosedWith(M.CleanupCompletion(t.Last().core, M.ShutdownPlan(request), answers), t')
    {
      hide WorldInvariant.Sound, M.CleanupCompletion;
      RunLengths(t);
    }

    static lemma FaultsStop(t: Runs.Run)
      requires t.worlds != [] && WorldInvariant.Sound(t) && Runs.InStep(t.Last().phase)
      ensures t.Last().fault.Some? <==> t.Last().phase.Stopping?
    {
    }

    static lemma RunLengths(t: Runs.Run)
      requires WorldInvariant.Sound(t)
      ensures |t.worlds| == |t.actions| + 1
    {
    }

    /** Either the step has ended, or it goes on in the run's phase. */
    ghost predicate Reached(ended: Option<WorkerStep>, p: M.Progress, t: Runs.Run, now: Duration)
      reads Parts(), policy.Repr(), Shake(), ConnectionRepr()
      requires Wired()
    {
      match ended
      case Some(step) => !step.Continue? && Concluded(step, t, now)
      case None => At(t, p, now) && t.Last().fault.None?
    }

    method CloseOnRequest(p: M.Progress, request: M.ShutdownRequest, since: Duration, ghost t: Runs.Run)
      returns (step: WorkerStep, now: Duration, ghost t': Runs.Run)
      requires Valid() && At(t, p, since) && Runs.InStep(t.Last().phase)
      modifies Parts(), Owned
      ensures Valid() && Owned == old(Owned)
      ensures step.ClosedStep? && Concluded(step, t', now) && t'.Last().phase.ClosedDown?
      ensures t'.Extends(t) && |t'.actions| == |t.actions| + 1 && ClosedOn(request, t')
      ensures t'.Last().channel == t.Last().channel && t'.Last().checks == t.Last().checks
    {
      hide M.CloseWorker, M.InterruptedTap, M.CleanupCompletion, WorldInvariant.Sound, ClosedWith, ClosedOn;
      LiveFacts(t, p, since);
      now := ReadClock(since);
      ghost var answers;
      var p', completion, interrupted;
      p', completion, interrupted, answers := CloseFor(p, request, now);
      t' := WorldInvariant.GoShutdown(t, request, now, answers);
      ShutdownEnds(t, t', request, now, answers);
      step := ClosedStep(completion, interrupted, p');
    }

    method Fail(p: M.Progress, error: WorkerCoreError, now: Duration, ghost t: Runs.Run)
      returns (step: WorkerStep, ghost t': Runs.Run)
      requires Valid() && At(t, p, now) && t.Last().phase.Stopping? && t.Last().fault == Some(error)
      modifies this, lifecycle, status
      ensures Valid() && Owned == old(Owned)
      ensures step.FailedStep? && Concluded(step, t', now) && t'.Last().phase.Broken?
      ensures t'.Extends(t) && |t'.actions| == |t.actions| + 1
      ensures t'.Last().channel == t.Last().channel && t'.Last().checks == t.Last().checks
    {
      hide M.FailWorker, WorldInvariant.Sound;
      LiveFacts(t, p, now);
      var p' := FailWith(p, error);
      t' := WorldInvariant.GoFail(t);
      step := FailedStep(error, p');
    }

    method EndStep(p: M.Progress, requested: Option<M.ShutdownRequest>, fault: Option<WorkerCoreError>, since: Duration,
                   ghost t: Runs.Run)
      returns (ended: Option<WorkerStep>, now: Duration, ghost t': Runs.Run)
      requires Valid() && At(t, p, since) && Runs.InStep(t.Last().phase) && t.Last().fault == fault
      modifies Parts(), Owned
      ensures Valid() && Owned == old(Owned)
      ensures Reached(ended, p, t', now) && t'.Extends(t)
      ensures t'.Last().channel == t.Last().channel && t'.Last().checks == t.Last().checks
      ensures ended.None? <==> requested.None? && fault.None?
      ensures ended.None? ==> t' == t
      ensures ended.Some? ==> |t'.actions| == |t.actions| + 1
      ensures requested.Some? ==> ended.value.ClosedStep? && t'.Last().phase.ClosedDown? && ClosedOn(requested.value, t')
      ensures requested.None? && fault.Some? ==> ended.value.FailedStep? && t'.Last().phase.Broken?
    {
      hide WorldInvariant.Sound, Concluded;
      FaultsStop(t);
      ended, now, t' := None, since, t;
      if requested.Some? {
        var step;
        step, now, t' := CloseOnRequest(p, requested.value, since, t);
        ended := Some(step);
      } else if fault.Some? {
        var step;
        step, t' := Fail(p, fault.value, since, t);
        ended := Some(step);
      }
    }

    /** After an action a requested shutdown closes the worker, even over a fault; otherwise a fault fails it. */
    method Checkpoint(p: M.Progress, fault: Option<WorkerCoreError>, since: Duration, shutdown: PriorityShutdown,
                      ghost t: Runs.Run)
      returns (ended: Option<WorkerStep>, now: Duration, ghost t': Runs.Run)
      requires Valid() && At(t, p, since) && Runs.InStep(t.Last().phase) && t.Last().fault == fault
      requires shutdown !in Owned && Awaited(shutdown, t)
      modifies Parts(), Owned, shutdown
      ensures Valid() && Owned == old(Owned)
      ensures Reached(ended, p, t', now) && t'.Extends(t) && (ended.None? ==> t' == t)
      ensures ended.Some? ==> |t'.actions| == |t.actions| + 1 && (ended.value.FailedStep? ==> fault.Some?)
      ensures t'.Last().channel == t.Last().channel && Synced(shutdown, t')
      ensures old(shutdown.state).Requested? ==>
                ended.Some? && ended.value.ClosedStep? && ClosedOn(old(shutdown.state).request, t')
    {
      hide WorldInvariant.Sound, Concluded;
      var requested := shutdown.Take();
      ended, now, t' := EndStep(p, requested, fault, since, t);
    }

    /** The command channel and the run agree on the commands taken, the results delivered and the response in flight. */
    ghost predicate Linked(commands: CommandReceiver, t: Runs.Run)
      reads commands
      requires t.worlds != []
    {
      commands.Valid() && commands.State() == t.Last().channel
    }

    method Dispatch(command: RuntimeCommand, since: Duration, ghost t: Runs.Run)
      returns (p: M.Progress, fault: Option<WorkerCoreError>, now: Duration, ghost t': Runs.Run)
      requires Valid() && At(t, M.FRESH, since) && t.Last().phase.Started? && !Value().HasPending()
      modifies Parts(), Owned
      ensures Valid() && fresh(Owned - old(Owned))
      ensures At(t', p, now) && t'.Last().fault == fault && t'.Extends(t)
      ensures Runs.InStep(t'.Last().phase) && (fault.None? ==> t'.Last().phase.Commanded?)
      ensures t'.Last().channel == t.Last().channel.Take(command) && t'.Last().checks == t.Last().checks + 1
    {
      hide M.ConnectCommand, M.InputStep, WorldInvariant.Sound;
      LiveFacts(t, M.FRESH, since);
      match command {
        case Pair(timeout) =>
          ghost var error;
          p, fault, now, error := Connect(M.FRESH, PairCommand, timeout, since);
          t' := WorldInvariant.GoConnect(t, PairCommand, timeout, error, now);
        case Reconnect(timeout) =>
          ghost var error;
          p, fault, now, error := Connect(M.FRESH, ReconnectCommand, timeout, since);
          t' := WorldInvariant.GoConnect(t, ReconnectCommand, timeout, error, now);
        case InputCommand(input) =>
          ghost var outcome;
          p, fault, now, outcome := HandleInput(M.FRESH, input, since);
          t' := WorldInvariant.GoInput(t, input, now, outcome);
      }
    }

    lemma FindEmptySlot(now: Duration, t: Runs.Run) returns (t': Runs.Run)
      requires Valid() && At(t, M.FRESH, now) && t.Last().phase.Started? && !Value().HasPending()
      ensures At(t', M.FRESH, now) && t'.Last().phase.Commanded? && t'.Extends(t)
      ensures t'.Last().channel == t.Last().channel && t'.Last().fault == t.Last().fault
      ensures t'.Last().checks == t.Last().checks
    {
      hide WorldInvariant.Sound;
      t' := WorldInvariant.GoQuietly(t, Runs.NoCommand);
    }

    method Settle(p: M.Progress, now: Duration, ghost t: Runs.Run) returns (p': M.Progress, ghost t': Runs.Run)
      requires Valid() && At(t, p, now)
      requires t.Last().phase.Commanded? || (t.Last().phase.Started? && Value().HasPending())
      ensures At(t', p', now) && t'.Last().phase == Runs.Polling(0) && t'.Extends(t)
      ensures p' == M.SettleCommand(Value(), p)
      ensures t'.Last().channel == t.Last().channel && t'.Last().fault == t.Last().fault
      ensures t'.Last().checks == t.Last().checks
    {
      hide WorldInvariant.Sound;
      p' := p;
      if p.commands == 1 && connectionCommandPending.None? && tap.None? {
        p' := p.(immediate := true);
      }
      t' := WorldInvariant.GoQuietly(t, Runs.Settle);
    }

    /** The channel after the slot was emptied. */
    static function TakenFrom(channel: Channel, slot: Option<CommandRequest>): Channel {
      if slot.Some? then channel.Take(slot.value.command) else channel
    }

    method RunCommand(command: RuntimeCommand, shutdown: PriorityShutdown, since: Duration, ghost t: Runs.Run)
      returns (ended: Option<WorkerStep>, p: M.Progress, now: Duration, ghost t': Runs.Run)
      requires Valid() && At(t, M.FRESH, since) && t.Last().phase.Started?
      requires !Value().HasPending() && shutdown !in Owned && Synced(shutdown, t)
      modifies Parts(), Owned, shutdown
      ensures Valid() && fresh(Owned - old(Owned))
      ensures Reached(ended, p, t', now) && t'.Extends(t) && Synced(shutdown, t')
      ensures t'.Last().channel == t.Last().channel.Take(command)
      ensures ended.None? ==> t'.Last().phase.Commanded?
    {
      hide WorldInvariant.Sound;
      var fault;
      p, fault, now, t' := Dispatch(command, since, t);
      ended, now, t' := Checkpoint(p, fault, now, shutdown, t');
    }

    method TakeNext(shutdown: PriorityShutdown, commands: CommandReceiver, since: Duration, ghost t: Runs.Run)
      returns (ended: Option<WorkerStep>, p: M.Progress, now: Duration, ghost t': Runs.Run)
      requires Valid() && At(t, M.FRESH, since) && t.Last().phase.Started? && Linked(commands, t)
      requires !Value().HasPending() && shutdown !in Owned && commands !in Owned && Synced(shutdown, t)
      modifies Parts(), Owned, shutdown, commands
      ensures Valid() && fresh(Owned - old(Owned))
      ensures Reached(ended, p, t', now) && Linked(commands, t') && t'.Extends(t) && Synced(shutdown, t')
      ensures t'.Last().channel == TakenFrom(t.Last().channel, old(commands.queue)) && commands.queue.None?
      ensures ended.None? ==> t'.Last().phase.Commanded?
    {
      hide WorldInvariant.Sound, Concluded;
      LiveFacts(t, M.FRESH, since);
      ended, p, now, t' := None, M.FRESH, since, t;
      var command := commands.TryNext();
      if command.None? {
        t' := FindEmptySlot(since, t);
      } else {
        ended, p, now, t' := RunCommand(command.value, shutdown, since, t);
      }
    }

    method TakeCommand(shutdown: PriorityShutdown, commands: CommandReceiver, since: Duration, ghost t: Runs.Run)
      returns (ended: Option<WorkerStep>, p: M.Progress, now: Duration, ghost t': Runs.Run)
      requires Valid() && At(t, M.FRESH, since) && t.Last().phase.Started? && Linked(commands, t)
      requires shutdown !in Owned && commands !in Owned && Synced(shutdown, t)
      modifies Parts(), Owned, shutdown, commands
      ensures Valid() && fresh(Owned - old(Owned))
      ensures Reached(ended, p, t', now) && Linked(commands, t') && t'.Extends(t) && Synced(shutdown, t')
      ensures t'.Last().channel == if old(Value()).HasPending() then t.Last().channel
                                   else TakenFrom(t.Last().channel, old(commands.queue))
      ensures !old(Value()).HasPending() ==> commands.queue.None?
      ensures ended.None? ==> t'.Last().phase == Runs.Polling(0)
    {
      hide WorldInvariant.Sound;
      ended, p, now, t' := None, M.FRESH, since, t;
      LiveFacts(t, M.FRESH, since);
      if connectionCommandPending.None? && tap.None? {
        ended, p, now, t' := TakeNext(shutdown, commands, since, t);
      }
      if ended.None? {
        p, t' := Settle(p, now, t');
      }
    }

    method PollTransport() returns (events: Result<seq<TransportEvent>, TransportErrorKind>)
      requires Valid()
      modifies port
      ensures Valid() && Value() == M.WithCall(old(Value()), Polled(events))
    {
      events := port.Poll();
    }

    /** Tags every event of a batch with the session it arrived in. */
    method TagEvents(events: seq<TransportEvent>) returns (tagged: seq<Option<SessionEvent>>)
      requires Valid()
      ensures tagged == Runs.Tag(Value(), events)
    {
      tagged := [];
      for i := 0 to |events|
        invariant |tagged| == i
        invariant forall j :: 0 <= j < i ==> tagged[j] == sessions.TagCurrent(events[j])
      {
        tagged := tagged + [sessions.TagCurrent(events[i])];
      }
    }

    method StepEvent(p: M.Progress, since: Duration, ghost t: Runs.Run, tagged: Option<SessionEvent>)
      returns (p': M.Progress, fault: Option<WorkerCoreError>, topologyChanged: bool, now: Duration, ghost t': Runs.Run)
      requires Valid() && At(t, p, since) && t.Last().fault.None?
      requires t.Last().phase.Handling? && t.Last().phase.events != [] && t.Last().phase.events[0] == tagged
      modifies Parts(), Owned
      ensures Valid() && Owned == old(Owned) && At(t', p', now) && t'.Extends(t)
      ensures t'.Last().fault == fault && t'.Last().channel == t.Last().channel && Runs.InStep(t'.Last().phase)
      ensures t'.Last().checks == t.Last().checks + 1
      ensures var batch, rest := t.Last().phase.batch, t.Last().phase.events[1..];
              fault.None? ==> t'.Last().phase == if topologyChanged then Runs.Topology(batch, rest)
                                                 else Runs.Handling(batch, rest)
    {
      hide WorldInvariant.Sound, M.HandleEvent;
      LiveFacts(t, p, since);
      p', fault, topologyChanged, now := p, None, false, since;
      ghost var outcome := Accepted;
      if tagged.Some? {
        p', fault, topologyChanged, now, outcome := HandleEvent(p, tagged.value, since);
      }
      t' := WorldInvariant.GoEvent(t, now, outcome);
    }

    method StepDrive(p: M.Progress, since: Duration, ghost t: Runs.Run)
      returns (p': M.Progress, fault: Option<WorkerCoreError>, now: Duration, ghost t': Runs.Run)
      requires Valid() && At(t, p, since) && (t.Last().phase.Topology? || t.Last().phase.LastDrive?)
      modifies Parts(), Owned
      ensures Valid() && fresh(Owned - old(Owned)) && At(t', p', now) && t'.Extends(t)
      ensures t'.Last().fault == fault && t'.Last().channel == t.Last().channel && Runs.InStep(t'.Last().phase)
      ensures t'.Last().checks == t.Last().checks + 1
      ensures var phase := t.Last().phase;
              fault.None? ==> t'.Last().phase == if phase.Topology? then Runs.Handling(phase.batch, phase.events)
                                                 else Runs.DueCheck
    {
      hide WorldInvariant.Sound, M.Drive;
      LiveFacts(t, p, since);
      now := ReadClock(since);
      ghost var outcome;
      p', fault, outcome := DriveConnection(p, now);
      t' := WorldInvariant.GoDrive(t, now, outcome);
    }

    method DriveNow(p: M.Progress, since: Duration, shutdown: PriorityShutdown, ghost t: Runs.Run)
      returns (ended: Option<WorkerStep>, p': M.Progress, now: Duration, ghost t': Runs.Run)
      requires Valid() && At(t, p, since) && shutdown !in Owned && Synced(shutdown, t)
      requires t.Last().phase.Topology? || t.Last().phase.LastDrive?
      modifies Parts(), Owned, shutdown
      ensures Valid() && fresh(Owned - old(Owned))
      ensures Reached(ended, p', t', now) && t'.Extends(t) && t'.Last().channel == t.Last().channel
      ensures Synced(shutdown, t')
      ensures var phase := t.Last().phase;
              ended.None? ==> t'.Last().phase == if phase.Topology? then Runs.Handling(phase.batch, phase.events)
                                                 else Runs.DueCheck
    {
      hide WorldInvariant.Sound, Concluded;
      var fault;
      p', fault, now, t' := StepDrive(p, since, t);
      ended, now, t' := Checkpoint(p', fault, now, shutdown, t');
    }

    method HandleTagged(p: M.Progress, since: Duration, shutdown: PriorityShutdown, ghost t: Runs.Run,
                        tagged: Option<SessionEvent>)
      returns (ended: Option<WorkerStep>, p': M.Progress, now: Duration, ghost t': Runs.Run)
      requires Valid() && At(t, p, since) && t.Last().fault.None? && shutdown !in Owned && Synced(shutdown, t)
      requires t.Last().phase.Handling? && t.Last().phase.events != [] && t.Last().phase.events[0] == tagged
      modifies Parts(), Owned, shutdown
      ensures Valid() && fresh(Owned - old(Owned))
      ensures Reached(ended, p', t', now) && t'.Extends(t) && t'.Last().channel == t.Last().channel
      ensures Synced(shutdown, t')
      ensures var phase := t.Last().phase;
              ended.None? ==> t'.Last().phase == Runs.Handling(phase.batch, phase.events[1..])
    {
      hide WorldInvariant.Sound, Concluded;
      var fault, topologyChanged;
      p', fault, topologyChanged, now, t' := StepEvent(p, since, t, tagged);
      ended, now, t' := Checkpoint(p', fault, now, shutdown, t');
      if ended.None? && topologyChanged {
        ended, p', now, t' := DriveNow(p', now, shutdown, t');
      }
    }

    method HandleBatch(p: M.Progress, since: Duration, shutdown: PriorityShutdown, ghost t: Runs.Run,
                       events: seq<Option<SessionEvent>>)
      returns (ended: Option<WorkerStep>, p': M.Progress, now: Duration, ghost t': Runs.Run)
      requires Valid() && At(t, p, since) && t.Last().fault.None? && shutdown !in Owned && Synced(shutdown, t)
      requires t.Last().phase.Handling? && t.Last().phase.events == events
      modifies Parts(), Owned, shutdown
      ensures Valid() && fresh(Owned - old(Owned))
      ensures Reached(ended, p', t', now) && t'.Extends(t) && t'.Last().channel == t.Last().channel
      ensures Synced(shutdown, t')
      ensures ended.None? ==> t'.Last().phase == Runs.Handling(t.Last().phase.batch, [])
    {
      hide WorldInvariant.Sound, Concluded;
      ended, p', now, t' := None, p, since, t;
      for i := 0 to |events|
        invariant Valid() && fresh(Owned - old(Owned)) && ended.None?
        invariant Reached(ended, p', t', now) && t'.Extends(t) && t'.Last().channel == t.Last().channel
        invariant Synced(shutdown, t')
        invariant t'.Last().phase == Runs.Handling(t.Last().phase.batch, events[i..])
      {
        ended, p', now, t' := HandleTagged(p', now, shutdown, t', events[i]);
        if ended.Some? {
          return;
        }
      }
    }

    /** One poll of the transport, and the world it leads to. */
    method PollPort(p: M.Progress, now: Duration, ghost t: Runs.Run)
      returns (polled: Result<seq<TransportEvent>, TransportErrorKind>, ghost t': Runs.Run)
      requires Valid() && At(t, p, now) && t.Last().phase.Polling?
      modifies port
      ensures Valid() && At(t', p, now) && t'.Extends(t) && t'.Last().channel == t.Last().channel
      ensures t'.Last().checks == t.Last().checks + if polled.Err? then 1 else 0
      ensures t'.Last().fault == if polled.Err? then Some(TransportFailed(polled.error)) else None
      ensures polled.Err? ==> t'.Last().phase.Stopping?
      ensures polled.Ok? ==> t'.Last().phase == if polled.value == [] then Runs.LastDrive
                                                else Runs.Handling(t.Last().phase.batch, Runs.Tag(Value(), polled.value))
    {
      hide WorldInvariant.Sound;
      LiveFacts(t, p, now);
      ghost var core := Value();
      polled := PollTransport();
      t' := WorldInvariant.GoPoll(t, polled);
      TagIgnoresTrace(core, polled);
    }

    static lemma TagIgnoresTrace(c: M.Core, polled: Result<seq<TransportEvent>, TransportErrorKind>)
      ensures polled.Ok? ==> Runs.Tag(M.WithCall(c, Polled(polled)), polled.value) == Runs.Tag(c, polled.value)
    {
    }

    /** One poll: its events tagged for handling, or the end of the step if the transport has failed. */
    method PollOnce(p: M.Progress, since: Duration, shutdown: PriorityShutdown, ghost t: Runs.Run)
      returns (ended: Option<WorkerStep>, events: seq<Option<SessionEvent>>, now: Duration, ghost t': Runs.Run)
      requires Valid() && At(t, p, since) && t.Last().phase.Polling? && shutdown !in Owned && Synced(shutdown, t)
      modifies Parts(), Owned, shutdown
      ensures Valid() && Owned == old(Owned)
      ensures Reached(ended, p, t', now) && t'.Extends(t) && t'.Last().channel == t.Last().channel
      ensures Synced(shutdown, t')
      ensures ended.None? ==> t'.Last().phase == if events == [] then Runs.LastDrive
                                                 else Runs.Handling(t.Last().phase.batch, events)
    {
      hide WorldInvariant.Sound, Concluded, Runs.Tag;
      ended, events, now := None, [], since;
      var polled;
      polled, t' := PollPort(p, since, t);
      match polled {
        case Err(kind) =>
          ended, now, t' := Checkpoint(p, Some(TransportFailed(kind)), since, shutdown, t');
        case Ok(batch) =>
          events := TagEvents(batch);
      }
    }

    method EndBatch(batch: nat, p: M.Progress, now: Duration, ghost t: Runs.Run)
      returns (p': M.Progress, ghost t': Runs.Run)
      requires Valid() && At(t, p, now) && t.Last().phase == Runs.Handling(batch, [])
      ensures At(t', p', now) && t'.Extends(t) && t'.Last().channel == t.Last().channel
      ensures t'.Last().fault == t.Last().fault && t'.Last().checks == t.Last().checks
      ensures p' == if batch + 1 < pollBatches then p else p.(immediate := true)
      ensures t'.Last().phase == if batch + 1 < pollBatches then Runs.Polling(batch + 1) else Runs.LastDrive
    {
      hide WorldInvariant.Sound;
      t' := WorldInvariant.GoQuietly(t, Runs.EndBatch);
      p' := if batch + 1 < pollBatches then p else p.(immediate := true);
    }

    method ServeBatch(batch: nat, p: M.Progress, since: Duration, shutdown: PriorityShutdown, ghost t: Runs.Run)
      returns (ended: Option<WorkerStep>, drained: bool, p': M.Progress, now: Duration, ghost t': Runs.Run)
      requires Valid() && At(t, p, since) && t.Last().phase == Runs.Polling(batch) && t.Last().fault.None?
      requires shutdown !in Owned && Synced(shutdown, t)
      modifies Parts(), Owned, shutdown
      ensures Valid() && fresh(Owned - old(Owned))
      ensures Reached(ended, p', t', now) && t'.Extends(t) && t'.Last().channel == t.Last().channel
      ensures Synced(shutdown, t')
      ensures ended.None? ==> t'.Last().phase == if !drained && batch + 1 < pollBatches then Runs.Polling(batch + 1)
                                                 else Runs.LastDrive
    {
      hide WorldInvariant.Sound, Concluded, At, Value;
      drained, p' := false, p;
      var events;
      ended, events, now, t' := PollOnce(p', since, shutdown, t);
      if ended.Some? {
        return;
      }
      drained := events == [];
      if !drained {
        ended, p', now, t' := HandleBatch(p', now, shutdown, t', events);
        if ended.None? {
          p', t' := EndBatch(batch, p', now, t');
        }
      }
    }

    method PollBatches(p: M.Progress, since: Duration, shutdown: PriorityShutdown, ghost t: Runs.Run)
      returns (ended: Option<WorkerStep>, p': M.Progress, now: Duration, ghost t': Runs.Run)
      requires Valid() && At(t, p, since) && t.Last().phase == Runs.Polling(0) && t.Last().fault.None?
      requires shutdown !in Owned && Synced(shutdown, t)
      modifies Parts(), Owned, shutdown
      ensures Valid() && fresh(Owned - old(Owned))
      ensures Reached(ended, p', t', now) && t'.Extends(t) && t'.Last().channel == t.Last().channel
      ensures Synced(shutdown, t')
      ensures ended.None? ==> t'.Last().phase.LastDrive?
    {
      hide WorldInvariant.Sound, Concluded;
      ended, p', now, t' := None, p, since, t;
      for batch := 0 to pollBatches
        invariant Valid() && fresh(Owned - old(Owned)) && ended.None?
        invariant Reached(ended, p', t', now) && t'.Extends(t) && t'.Last().channel == t.Last().channel
        invariant Synced(shutdown, t')
        invariant t'.Last().phase == if batch < pollBatches then Runs.Polling(batch) else Runs.LastDrive
      {
        var drained;
        ended, drained, p', now, t' := ServeBatch(batch, p', now, shutdown, t');
        if ended.Some? || drained {
          return;
        }
      }
    }

    method StepDue(p: M.Progress, since: Duration, ghost t: Runs.Run)
      returns (p': M.Progress, fault: Option<WorkerCoreError>, now: Duration, ghost t': Runs.Run)
      requires Valid() && At(t, p, since) && t.Last().phase.DueCheck? && M.DueAllowed(Value())
      modifies Parts(), Owned
      ensures Valid() && Owned == old(Owned) && At(t', p', now) && t'.Extends(t)
      ensures t'.Last().fault == fault && t'.Last().channel == t.Last().channel && Runs.InStep(t'.Last().phase)
      ensures t'.Last().checks == t.Last().checks + 1
      ensures fault.None? ==> t'.Last().phase.Finishing?
    {
      hide WorldInvariant.Sound, M.RunDue;
      LiveFacts(t, p, since);
      now := ReadClock(since);
      ghost var capacity, outcome;
      p', fault, capacity, outcome := RunDue(p, now);
      t' := WorldInvariant.GoDue(t, now, capacity, outcome);
    }

    method RunDueNow(p: M.Progress, since: Duration, shutdown: PriorityShutdown, ghost t: Runs.Run)
      returns (ended: Option<WorkerStep>, p': M.Progress, now: Duration, ghost t': Runs.Run)
      requires Valid() && At(t, p, since) && shutdown !in Owned && Synced(shutdown, t)
      requires t.Last().phase.DueCheck? && M.DueAllowed(Value())
      modifies Parts(), Owned, shutdown
      ensures Valid() && Owned == old(Owned)
      ensures Reached(ended, p', t', now) && t'.Extends(t) && t'.Last().channel == t.Last().channel
      ensures Synced(shutdown, t')
      ensures ended.None? ==> t'.Last().phase.Finishing?
    {
      hide WorldInvariant.Sound, Concluded, M.DueAllowed;
      var fault;
      p', fault, now, t' := StepDue(p, since, t);
      ended, now, t' := Checkpoint(p', fault, now, shutdown, t');
    }

    method FinishStep(p: M.Progress, now: Duration, ghost t: Runs.Run) returns (step: WorkerStep, ghost t': Runs.Run)
      requires Valid() && At(t, p, now)
      requires t.Last().phase.Finishing? || (t.Last().phase.DueCheck? && !M.DueAllowed(Value()))
      ensures step.Continue? && Concluded(step, t', now) && t'.Extends(t) && t'.Last().phase.Delivering?
      ensures t'.Last().channel == t.Last().channel && t'.Last().checks == t.Last().checks
    {
      hide WorldInvariant.Sound, M.NextDeadline, M.DueAllowed;
      var deadline := NextDeadline();
      step := Continue(p.(nextDeadline := MinimumDeadline(p.nextDeadline, deadline)));
      t' := WorldInvariant.GoQuietly(t, Runs.Finish);
    }

    lemma BeginStep(p: M.Progress, now: Duration, t: Runs.Run) returns (t': Runs.Run)
      requires Valid() && At(t, p, now) && t.Last().phase.Idle?
      ensures At(t', M.FRESH, now) && t'.Last().phase.Started? && t'.Extends(t) && |t'.actions| == |t.actions| + 1
      ensures t'.Last().channel == t.Last().channel && t'.Last().fault == t.Last().fault
      ensures t'.Last().checks == t.Last().checks + 1
    {
      hide WorldInvariant.Sound;
      t' := WorldInvariant.GoQuietly(t, Runs.StepBegins);
    }

    /** The end of a step: due work if the lifecycle allows it, then the next deadline. */
    method DueStage(p: M.Progress, since: Duration, shutdown: PriorityShutdown, ghost t: Runs.Run)
      returns (step: WorkerStep, now: Duration, ghost t': Runs.Run)
      requires Valid() && At(t, p, since) && t.Last().phase.DueCheck? && shutdown !in Owned && Synced(shutdown, t)
      modifies Parts(), Owned, shutdown
      ensures Valid() && Owned == old(Owned)
      ensures Concluded(step, t', now) && t'.Extends(t) && t'.Last().channel == t.Last().channel
      ensures Synced(shutdown, t')
    {
      hide WorldInvariant.Sound, Concluded, M.DueAllowed;
      var ended, p' := None, p;
      now, t' := since, t;
      var due := DueAllowed();
      if due {
        ended, p', now, t' := RunDueNow(p, since, shutdown, t);
        if ended.Some? {
          return ended.value, now, t';
        }
      }
      step, t' := FinishStep(p', now, t');
    }

    /** Everything a step does after its command: polls, drives the connection, and does what is due. */
    method ServeTransport(p: M.Progress, since: Duration, shutdown: PriorityShutdown, ghost t: Runs.Run)
      returns (step: WorkerStep, now: Duration, ghost t': Runs.Run)
      requires Valid() && At(t, p, since) && t.Last().phase == Runs.Polling(0) && t.Last().fault.None?
      requires shutdown !in Owned && Synced(shutdown, t)
      modifies Parts(), Owned, shutdown
      ensures Valid() && fresh(Owned - old(Owned))
      ensures Concluded(step, t', now) && t'.Extends(t) && t'.Last().channel == t.Last().channel
      ensures Synced(shutdown, t')
    {
      hide WorldInvariant.Sound, Concluded, At, Value;
      var ended, p';
      ended, p', now, t' := PollBatches(p, since, shutdown, t);
      if ended.Some? {
        return ended.value, now, t';
      }
      ended, p', now, t' := DriveNow(p', now, shutdown, t');
      if ended.Some? {
        return ended.value, now, t';
      }
      step, now, t' := DueStage(p', now, shutdown, t');
    }

    /** The start of a step: a shutdown that is already requested goes before everything else. */
    method StartStep(shutdown: PriorityShutdown, ghost p: M.Progress, since: Duration, ghost t: Runs.Run)
      returns (ended: Option<WorkerStep>, now: Duration, ghost t': Runs.Run)
      requires Valid() && At(t, p, since) && t.Last().phase.Idle? && shutdown !in Owned && Synced(shutdown, t)
      modifies Parts(), Owned, shutdown
      ensures Valid() && Owned == old(Owned)
      ensures Reached(ended, M.FRESH, t', now) && t'.Extends(t) && t'.Last().channel == t.Last().channel
      ensures Synced(shutdown, t') && |t'.actions| == |t.actions| + if ended.Some? then 2 else 1
      ensures ended.Some? ==> ended.value.ClosedStep?
      ensures ended.None? ==> t'.Last().phase.Started? && Value() == old(Value())
      ensures old(shutdown.state).Requested? ==>
                ended.Some? && ended.value.ClosedStep? && ClosedOn(old(shutdown.state).request, t')
    {
      hide WorldInvariant.Sound, Concluded;
      t' := BeginStep(p, since, t);
      LiveFacts(t', M.FRESH, since);
      ended, now, t' := Checkpoint(M.FRESH, None, since, shutdown, t');
    }

    /** One step of the worker. */
    method StepRuntime(shutdown: PriorityShutdown, commands: CommandReceiver, ghost p: M.Progress, since: Duration,
                       ghost t: Runs.Run)
      returns (step: WorkerStep, now: Duration, ghost t': Runs.Run, ghost started: bool)
      requires Valid() && At(t, p, since) && t.Last().phase.Idle? && Linked(commands, t)
      requires shutdown !in Owned && commands !in Owned && Synced(shutdown, t)
      modifies Parts(), Owned, shutdown, commands
      ensures Valid() && fresh(Owned - old(Owned))
      ensures Concluded(step, t', now) && t'.Extends(t) && Linked(commands, t') && Synced(shutdown, t')
      ensures old(shutdown.state).Requested? ==>
                step.ClosedStep? && |t'.actions| == |t.actions| + 2 && ClosedOn(old(shutdown.state).request, t')
      ensures !started ==> step.ClosedStep? && |t'.actions| == |t.actions| + 2
      ensures t'.Last().channel == if !started || old(Value()).HasPending() then t.Last().channel
                                   else TakenFrom(t.Last().channel, old(commands.queue))
    {
      hide WorldInvariant.Sound, Concluded;
      var ended, p';
      ended, now, t' := StartStep(shutdown, p, since, t);
      started := ended.None?;
      if ended.Some? {
        return ended.value, now, t', started;
      }
      ended, p', now, t' := TakeCommand(shutdown, commands, now, t');
      if ended.Some? {
        return ended.value, now, t', started;
      }
      step, now, t' := ServeTransport(p', now, shutdown, t');
    }
  }
}
