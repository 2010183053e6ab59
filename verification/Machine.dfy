/** The worker as a machine of atomic actions (`src/runtime/worker.rs`). Each action is one method's effect on the
    worker's value, with what the environment answered as its arguments; the class in Worker.dfy performs them. */
module Machine {
  import opened Types
  import opened Clock
  import opened Cleanup
  import opened Command
  import opened Connection
  import opened Handshakes
  import opened Input
  import opened Lifecycle
  import opened Output
  import opened PeriodicPolicies
  import opened Readiness
  import opened Scheduler
  import opened Sender
  import opened Session
  import Status
  import opened Taps
  import opened Transport

  datatype Attempted = Attempted(sessionId: U64, handshake: Option<Shake>, gate: Gate)

  datatype Core = Core(
    mode: Mode,
    lifecycle: LifecycleState,
    input: InputState,
    policy: Policy,
    tap: Option<PendingTap>,
    out: Outbound,
    observed: Observations,
    sessions: Sessions,
    connection: Option<Attempted>,
    pending: Option<ConnectionCommandKind>,
    connected: bool)
  {
    predicate HasPending() {
      pending.Some? || tap.Some?
    }
  }

  datatype OperationError =
    | OutputFailed(output: OutputHandlingError)
    | PeriodicFailed(periodic: PeriodicError)
    | ReadinessLost

  /** What one step reports to the loop. */
  datatype Progress = Progress(
    commands: nat,
    immediate: bool,
    nextDeadline: Option<Duration>,
    result: Option<CommandResult>,
    errors: seq<OperationError>)

  const FRESH: Progress := Progress(0, false, None, None, [])

  datatype CommandProgress = Complete(result: CommandResult) | StillPending

  /** A fault ends the step: the worker closes if shutdown was requested meanwhile, and fails otherwise. */
  datatype Outcome = Outcome(core: Core, progress: Progress, fault: Option<WorkerCoreError>)

  // ---- Error classification ----

  /** The terminal transport error behind a periodic error, and the error left for the caller. */
  function PeriodicFault(e: PeriodicError): Option<WorkerCoreError> {
    match e
    case PeriodicTransport(_, Some(later)) => Some(TransportFailed(later))
    case PeriodicTransport(kind, None) => if kind != SendRejected then Some(TransportFailed(kind)) else None
    case _ => None
  }

  function ReportedPeriodic(e: PeriodicError): PeriodicError {
    if e.PeriodicTransport? then e.(laterTerminal := None) else e
  }

  function CommandFault(r: CommandResult): Option<WorkerCoreError> {
    match r
    case Err(DirectRejected(DirectTransport(kind))) =>
      if kind != SendRejected then Some(TransportFailed(kind)) else None
    case Err(PeriodicRejected(e)) => PeriodicFault(e)
    case _ => None
  }

  function Reported(r: CommandResult): CommandResult {
    match r
    case Err(PeriodicRejected(e)) => Err(PeriodicRejected(ReportedPeriodic(e)))
    case _ => r
  }

  function OperationFault(e: OperationError): Option<WorkerCoreError> {
    match e
    case OutputFailed(OutputTransport(kind)) => if kind != SendRejected then Some(TransportFailed(kind)) else None
    case PeriodicFailed(p) => PeriodicFault(p)
    case _ => None
  }

  function ReportedOperation(e: OperationError): OperationError {
    if e.PeriodicFailed? then PeriodicFailed(ReportedPeriodic(e.periodic)) else e
  }

  function RecordCommand(c: Core, p: Progress, cp: CommandProgress): Outcome {
    match cp
    case StillPending => Outcome(c, p, None)
    case Complete(r) => Outcome(c, p.(result := Some(Reported(r))), CommandFault(r))
  }

  function RecordOperation(c: Core, p: Progress, e: OperationError): Outcome {
    Outcome(c, p.(errors := p.errors + [ReportedOperation(e)]), OperationFault(e))
  }

  // ---- Completion of a connection command ----

  function CompleteConnection(c: Core, p: Progress, r: CommandResult): (Core, Progress) {
    if c.pending.Some? then (c.(pending := None), p.(result := Some(r), immediate := true)) else (c, p)
  }

  function FailConnection(c: Core, p: Progress, failure: ConnectionCommandFailure): (Core, Progress) {
    if c.pending.Some? then CompleteConnection(c, p, Err(ConnectionRejected(c.pending.value, failure))) else (c, p)
  }

  // ---- Sessions ----

  function StopReporting(c: Core): Core {
    c.(tap := None, policy := Stopped(c.policy))
  }

  function EndLifecycle(c: Core, reason: Option<Byte>): Core {
    var lifecycle := ConnectionEnded(c.lifecycle);
    c.(lifecycle := lifecycle, out := c.out.(status := Status.EndSession(c.out.status, lifecycle, reason)))
  }

  function LeaveSession(c: Core, reason: Option<Byte>): Core {
    EndLifecycle(StopReporting(c.(sessions := EndCurrent(c.sessions), connected := false)), reason)
  }

  function LoseConnection(c: Core, p: Progress, error: ReadinessError, reason: Option<Byte>): (Core, Progress) {
    var (c', p') := FailConnection(c.(connection := None), p, ReadinessFailed(error));
    (LeaveSession(c', reason), p'.(errors := p'.errors + [ReadinessLost]))
  }

  function Condition(mode: Mode): CompletionCondition {
    if mode.Periodic? then FirstSubcommand else UntilProtocolReady
  }

  /** A new session starts from a fresh sender, no observations and neutral input. */
  function BeginSession(c: Core): Core {
    c.(input := NEUTRAL, observed := NOTHING_OBSERVED, sessions := Issue(c.sessions), out := ResetOutbound(c.out),
       policy := if c.mode.Periodic? then Stopped(c.policy) else c.policy)
  }

  function AttachAttempt(c: Core, id: U64, deadline: Duration): Core {
    c.(connection := Some(Attempted(id, Some(NewShake(id, Condition(c.mode))), Gate(id, deadline, None))),
       connected := false)
  }

  function PublishSession(c: Core, id: U64): Core {
    c.(out := c.out.(status := Status.BeginSession(c.out.status, id, c.lifecycle, c.input)))
  }

  function BeginConnection(c: Core, now: Duration, timeout: Duration): Core {
    var begun := BeginSession(c.(lifecycle := LifecycleState.Connecting));
    var id := begun.sessions.lastIssued;
    PublishSession(AttachAttempt(begun, id, DeadlineAfter(now, timeout)), id)
  }

  // ---- Commands ----

  function WithCall(c: Core, call: PortCall): Core {
    c.(out := c.out.(wire := c.out.wire + [call]))
  }

  function StartCall(kind: ConnectionCommandKind, error: CallResult): PortCall {
    if kind.PairCommand? then StartedPairing(error) else StartedReconnect(error)
  }

  function BeginCommand(c: Core, p: Progress, kind: ConnectionCommandKind, timeout: Duration, now: Duration): Outcome {
    if c.lifecycle.Open? then Outcome(BeginConnection(c, now, timeout).(pending := Some(kind)), p, None)
    else RecordCommand(c, p, Complete(Err(ConnectionRejected(kind, BeginFailed(InvalidLifecycle)))))
  }

  /** Pair and Reconnect ask the transport first; the lifecycle is checked only after it agreed. */
  function ConnectCommand(c: Core, p: Progress, kind: ConnectionCommandKind, timeout: Duration, error: CallResult,
                          now: Duration): Outcome
  {
    var called := WithCall(c, StartCall(kind, error));
    var counted := p.(commands := p.commands + 1);
    if error.Some? then
      RecordCommand(called, counted,
                    Complete(Err(ConnectionRejected(kind, BeginFailed(TransportFailed(error.value))))))
    else BeginCommand(called, counted, kind, timeout, now)
  }

  function CommitInput(c: Core, state: InputState): Core {
    c.(input := state, out := c.out.(status := c.out.status.(snapshot := state)))
  }

  function CommitCandidate(c: Core, candidate: Result<InputState, InputError>): (Core, CommandProgress) {
    match candidate
    case Err(e) => (c, Complete(Err(InputRejected(e))))
    case Ok(state) => (CommitInput(c, state), Complete(Ok(())))
  }

  function BeginPeriodicTap(c: Core, plan: TapPlan, now: Duration, outcome: SendOutcome): (Core, CommandProgress) {
    if !c.lifecycle.Ready? then (c, Complete(Err(PeriodicRejected(PeriodicNotReady))))
    else
      var pressed := c.(input := plan.pressed,
                        out := CommitAndSend(c.out, plan.pressed, ProtocolTimestamp(now), outcome));
      match PeriodicPress(plan, now, outcome)
      case Ok(tap) => (pressed.(tap := Some(tap)), StillPending)
      case Err(e) => (pressed, Complete(Err(PeriodicRejected(e))))
  }

  /** Periodic input commands commit without sending, in any state; only a tap needs readiness and sends. */
  function PeriodicInput(c: Core, command: InputCommand, now: Duration, outcome: SendOutcome): (Core, CommandProgress) {
    match command
    case Candidate(state) => (CommitInput(c, state), Complete(Ok(())))
    case Press(buttons) => CommitCandidate(c, Pressed(c.input, buttons))
    case Release(buttons) => CommitCandidate(c, Released(c.input, buttons))
    case Neutral => (CommitInput(c, NEUTRAL), Complete(Ok(())))
    case Tap(buttons, duration) =>
      match Plan(c.input, buttons, duration)
      case Err(e) => (c, Complete(Err(InputRejected(e))))
      case Ok(plan) =>
        BeginPeriodicTap(c, plan, now, outcome)
  }

  function DirectSend(c: Core, candidate: InputState, now: Duration, outcome: SendOutcome): (Core, CommandProgress) {
    var (out, input) := SendThenCommit(c.out, c.input, candidate, ProtocolTimestamp(now), outcome);
    (c.(out := out, input := input),
     Complete(if outcome.Accepted? then Ok(()) else Err(DirectRejected(DirectTransport(outcome.kind)))))
  }

  function DirectCandidate(c: Core, candidate: Result<InputState, InputError>, now: Duration, outcome: SendOutcome)
    : (Core, CommandProgress)
  {
    match candidate
    case Err(e) => (c, Complete(Err(InputRejected(e))))
    case Ok(state) => DirectSend(c, state, now, outcome)
  }

  function BeginDirectTap(c: Core, plan: TapPlan, now: Duration, outcome: SendOutcome): (Core, CommandProgress) {
    var (out, input) := SendThenCommit(c.out, c.input, plan.pressed, ProtocolTimestamp(now), outcome);
    var sent := c.(out := out, input := input);
    if outcome.Accepted? then
      (sent.(tap := Some(PendingTap(plan.released, DeadlineAfter(now, plan.duration), None))), StillPending)
    else (sent, Complete(Err(DirectRejected(DirectTransport(outcome.kind)))))
  }

  /** Direct input commands need readiness, send at once, and commit only an accepted state. */
  function DirectInput(c: Core, command: InputCommand, now: Duration, outcome: SendOutcome): (Core, CommandProgress) {
    if !c.lifecycle.Ready? then (c, Complete(Err(DirectRejected(DirectNotReady))))
    else
      match command
      case Candidate(state) => DirectSend(c, state, now, outcome)
      case Press(buttons) => DirectCandidate(c, Pressed(c.input, buttons), now, outcome)
      case Release(buttons) => DirectCandidate(c, Released(c.input, buttons), now, outcome)
      case Neutral => DirectSend(c, NEUTRAL, now, outcome)
      case Tap(buttons, duration) =>
        match Plan(c.input, buttons, duration)
        case Err(e) => (c, Complete(Err(InputRejected(e))))
        case Ok(plan) =>
          BeginDirectTap(c, plan, now, outcome)
  }

  function HandleCommand(c: Core, command: InputCommand, now: Duration, outcome: SendOutcome): (Core, CommandProgress) {
    match InputCommandError(c.lifecycle)
    case Some(e) => (c, Complete(Err(LifecycleRejected(e))))
    case None =>
      if c.mode.Periodic? then PeriodicInput(c, command, now, outcome) else DirectInput(c, command, now, outcome)
  }

  function InputStep(c: Core, p: Progress, command: InputCommand, now: Duration, outcome: SendOutcome): Outcome {
    var (c', cp) := HandleCommand(c, command, now, outcome);
    RecordCommand(c', p.(commands := p.commands + 1), cp)
  }

  /** After a command that left nothing pending the loop steps again at once. */
  function SettleCommand(c: Core, p: Progress): Progress {
    if p.commands == 1 && !c.HasPending() then p.(immediate := true) else p
  }

  // ---- Transport events ----

  function ObserveTopology(c: Core, event: TransportEvent): Core {
    if c.connection.None? || c.connection.value.handshake.None? then c
    else
      var a := c.connection.value;
      c.(connection := Some(a.(handshake := Some(ObserveEvent(a.handshake.value, a.sessionId, event)))))
  }

  function MarkConnected(c: Core): Core {
    c.(connected := true, out := c.out.(status := c.out.status.(connected := true)))
  }

  function RecordOutput(c: Core, p: Progress, completion: OutputCompletion, now: Duration): Outcome {
    match completion
    case Ok(ReplyAccepted) =>
      if c.mode.Direct? then Outcome(c, p, None)
      else
        (match RecordReply(c.policy, now)
         case (policy, None) => Outcome(c.(policy := policy), p, None)
         case (policy, Some(e)) =>
           RecordOperation(c.(policy := policy), p, PeriodicFailed(PeriodicScheduler(e))))
    case Ok(RumbleOnly) => Outcome(c, p, None)
    case Err(e) => RecordOperation(c, p, OutputFailed(e))
  }

  function ReplyToOutput(c: Core, raw: seq<Byte>, outcome: SendOutcome): (Core, OutputCompletion) {
    var (out, seen, completion) := HandleOutput(c.out, c.observed, c.input, raw, outcome);
    (c.(out := out, observed := seen), completion)
  }

  function OutputEvent(c: Core, p: Progress, raw: seq<Byte>, now: Duration, outcome: SendOutcome): Outcome {
    var (c', completion) := ReplyToOutput(c, raw, outcome);
    RecordOutput(c', p, completion, now)
  }

  function TapInterruptedBy(mode: Mode, interruption: TapInterruption): WorkerCommandError {
    if mode.Direct? then DirectRejected(Interrupted(interruption))
    else if interruption.TapShutdown? then ShutdownInterrupted
    else DisconnectInterrupted
  }

  function InterruptTap(c: Core, p: Progress, reason: Option<Byte>): (Core, Progress) {
    if c.tap.None? then (c, p)
    else
      (c.(tap := None),
       p.(result := Some(Err(TapInterruptedBy(c.mode, TapDisconnected(reason)))), immediate := true))
  }

  function DisconnectEvent(c: Core, p: Progress, reason: Option<Byte>): (Core, Progress) {
    var (c', p') := InterruptTap(c, p, reason);
    if c'.connection.Some? then LoseConnection(c', p', ConnectionLost(reason), reason)
    else (LeaveSession(c', reason), p')
  }

  predicate IsCurrent(c: Core, event: SessionEvent) {
    Some(event.sessionId) == c.sessions.current
  }

  /** Whether the event can complete the topology, so that the connection is driven at once. */
  predicate ChangesTopology(c: Core, event: SessionEvent) {
    IsCurrent(c, event) && (event.event.LinkConnected? || event.event.HidChannelOpened?)
  }

  function HandleEvent(c: Core, p: Progress, event: SessionEvent, now: Duration, outcome: SendOutcome): Outcome {
    if !IsCurrent(c, event) then Outcome(c, p, None)
    else
      match event.event
      case LinkConnected =>
        Outcome(ObserveTopology(MarkConnected(c), event.event), p, None)
      case HidChannelOpened(_) => Outcome(ObserveTopology(c, event.event), p, None)
      case HidOutput(raw) => OutputEvent(c, p, raw, now, outcome)
      case LinkDisconnected(reason) =>
        var (c', p') := DisconnectEvent(c, p, reason);
        Outcome(c', p', None)
  }

  // ---- Driving a connection attempt ----

  /** The error a rejected bootstrap attempt leaves in the step's report, or the deadline of the next one. */
  function NoteHandshake(p: Progress, progress: HandshakeProgress): Progress {
    match progress
    case WaitingUntil(deadline) => p.(nextDeadline := MinimumDeadline(p.nextDeadline, Some(deadline)))
    case BootstrapAttempted(Refused(kind), _) =>
      if kind == SendRejected then p.(errors := p.errors + [OutputFailed(OutputTransport(kind))]) else p
    case _ => p
  }

  function HandshakeFault(r: Result<HandshakeProgress, SchedulerError>): Option<WorkerCoreError> {
    match r
    case Err(e) => Some(HandshakeFailed(e))
    case Ok(BootstrapAttempted(Refused(kind), _)) => if kind != SendRejected then Some(TransportFailed(kind)) else None
    case _ => None
  }

  ghost function StepHandshake(c: Core, now: Duration, outcome: SendOutcome)
    : (Core, Result<HandshakeProgress, SchedulerError>)
    requires c.connection.Some? && c.connection.value.handshake.Some?
  {
    var a := c.connection.value;
    var (h, out, r) := StepShake(a.handshake.value, c.out, a.sessionId, now, c.observed.ids != iset{}, outcome);
    (c.(out := out, connection := Some(a.(handshake := Some(h)))), r)
  }

  ghost function DriveHandshake(c: Core, p: Progress, now: Duration, outcome: SendOutcome): Outcome
    requires c.connection.Some?
  {
    if c.connection.value.handshake.None? then Outcome(c, p, None)
    else
      var (c', r) := StepHandshake(c, now, outcome);
      Outcome(c', if r.Ok? then NoteHandshake(p, r.value) else p, HandshakeFault(r))
  }

  function WithEvaluation(c: Core, e: Evaluation): (Core, Result<ReadinessProgress, ReadinessError>)
    requires c.connection.Some?
  {
    (c.(policy := e.policy, connection := Some(c.connection.value.(handshake := e.handshake, gate := e.gate))), e.result)
  }

  function EvaluateForPeriodic(c: Core, now: Duration): (Core, Result<ReadinessProgress, ReadinessError>)
    requires c.connection.Some?
  {
    var a := c.connection.value;
    WithEvaluation(c, EvaluatePeriodic(a.gate, a.handshake, c.policy, now, c.sessions, c.out.sender.session))
  }

  function EvaluateForDirect(c: Core, now: Duration): (Core, Result<ReadinessProgress, ReadinessError>)
    requires c.connection.Some?
  {
    var a := c.connection.value;
    WithEvaluation(c, EvaluateDirect(a.gate, a.handshake, c.policy, now, c.sessions, c.out.sender.session))
  }

  function EvaluateReadiness(c: Core, now: Duration): (Core, Result<ReadinessProgress, ReadinessError>)
    requires c.connection.Some?
  {
    if c.mode.Periodic? then EvaluateForPeriodic(c, now) else EvaluateForDirect(c, now)
  }

  function BecomeReady(c: Core): Core {
    c.(lifecycle := LifecycleState.Ready, connection := None, out := WithLifecycle(c.out, LifecycleState.Ready))
  }

  function SettleReadiness(c: Core, p: Progress, now: Duration): Outcome
    requires c.connection.Some?
  {
    var (c', r) := EvaluateReadiness(c, now);
    match r
    case Ok(Pending(_)) => Outcome(c', p, None)
    case Err(error) =>
      var (lost, p') := LoseConnection(c', p, error, None);
      Outcome(lost, p', None)
    case Ok(ReadyFor(id)) =>
      if id != c.connection.value.sessionId || !c.lifecycle.Connecting? then Outcome(c', p, Some(InvalidLifecycle))
      else
        var (ready, p') := CompleteConnection(BecomeReady(c'), p, Ok(()));
        Outcome(ready, p', None)
  }

  ghost function Drive(c: Core, p: Progress, now: Duration, outcome: SendOutcome): Outcome {
    if c.connection.None? then Outcome(c, p, None)
    else
      match InactiveError(c.connection.value.gate, now, c.sessions)
      case Some(error) =>
        var (lost, p') := LoseConnection(c, p, error, None);
        Outcome(lost, p', None)
      case None =>
        var o := DriveHandshake(c, p, now, outcome);
        if o.fault.Some? then o else SettleReadiness(o.core, o.progress, now)
  }

  // ---- Due work ----

  predicate DueAllowed(c: Core) {
    c.lifecycle.Ready? || (c.lifecycle.Connecting? && c.mode.Periodic? && c.policy.NextDeadline().Some?)
  }

  predicate TapDue(c: Core, now: Duration) {
    c.tap.Some? && c.tap.value.releaseAt <= now
  }

  function ReleasePeriodicTap(c: Core, now: Duration, outcome: SendOutcome): (Core, CommandProgress)
    requires c.tap.Some?
  {
    var tap := c.tap.value;
    (c.(tap := None, input := tap.released,
        out := CommitAndSend(c.out, tap.released, ProtocolTimestamp(now), outcome)),
     Complete(match PeriodicRelease(tap, outcome)
              case Ok(_) => Ok(())
              case Err(e) => Err(PeriodicRejected(e))))
  }

  function FinishTap(c: Core, p: Progress, now: Duration, outcome: SendOutcome): Outcome
    requires c.tap.Some?
  {
    var (c', cp) := if c.mode.Periodic? then ReleasePeriodicTap(c, now, outcome)
                    else DirectSend(c.(tap := None), c.tap.value.released, now, outcome);
    RecordCommand(c', p.(immediate := true), cp)
  }

  function SendAutomatic(c: Core, now: Duration, capacity: bool, outcome: SendOutcome)
    : (Core, Result<AutomaticInput, PeriodicError>)
  {
    var (policy, out, r) := SendDue(c.policy, c.out, now, c.input, capacity, outcome);
    (c.(policy := policy, out := out), r)
  }

  function RunDue(c: Core, p: Progress, now: Duration, capacity: bool, outcome: SendOutcome): Outcome {
    if TapDue(c, now) then FinishTap(c, p, now, outcome)
    else if c.mode.Direct? then Outcome(c, p, None)
    else
      var (c', r) := SendAutomatic(c, now, capacity, outcome);
      if r.Ok? then Outcome(c', p, None) else RecordOperation(c', p, PeriodicFailed(r.error))
  }

  /** The earliest time at which the worker has something of its own to do. */
  function NextDeadline(c: Core): Option<Duration> {
    var automatic := c.policy.NextDeadline();
    var reporting := MinimumDeadline(if automatic.Some? then automatic else c.policy.holdoff,
                                     if c.tap.Some? then Some(c.tap.value.releaseAt) else None);
    match c.connection
    case None => reporting
    case Some(a) =>
      MinimumDeadline(MinimumDeadline(reporting, Some(a.gate.deadline)),
                      if a.handshake.Some? then a.handshake.value.NextDeadline() else None)
  }

  // ---- Ends of a run ----

  datatype ShutdownRequest = ExplicitShutdown(mode: CloseMode) | DroppedShutdown

  function ShutdownPlan(request: ShutdownRequest): CleanupPlan {
    match request
    case ExplicitShutdown(mode) => ClosePlan(mode)
    case DroppedShutdown => DROP_PLAN
  }

  /** Cleanup of a worker that is not already closing. */
  function RunCleanupOn(c: Core, plan: CleanupPlan, now: Duration, publish: bool, answers: CleanupAnswers): Core {
    c.(lifecycle := LifecycleState.Closing,
       out := if c.lifecycle.Closing? then c.out
              else RunCleanup(plan, c.out, c.connected, ProtocolTimestamp(now), publish, answers))
  }

  function CleanUp(c: Core, plan: CleanupPlan, now: Duration, publish: bool, answers: CleanupAnswers): Core {
    var cleaned := RunCleanupOn(c, plan, now, publish, answers);
    cleaned.(connected := false, connection := None, sessions := EndCurrent(cleaned.sessions))
  }

  function CleanupCompletion(c: Core, plan: CleanupPlan, answers: CleanupAnswers): CloseCompletion {
    if c.lifecycle.Closing? then CloseCompletion(false, None)
    else CloseCompletion(true, EarliestFailure(plan, c.connected, answers))
  }

  function PublishClosed(c: Core): Core {
    c.(out := c.out.(status := Status.Close(c.out.status)))
  }

  function CloseWorker(c: Core, p: Progress, request: ShutdownRequest, now: Duration, answers: CleanupAnswers)
    : (Core, Progress)
  {
    var (c', p') := CompleteConnection(c, p, Err(ShutdownInterrupted));
    (PublishClosed(CleanUp(StopReporting(c'), ShutdownPlan(request), now, true, answers)), p')
  }

  /** The response of a tap that shutdown interrupted. */
  function InterruptedTap(c: Core): Option<WorkerCommandError> {
    if c.tap.Some? then Some(TapInterruptedBy(c.mode, TapShutdown)) else None
  }

  function FailureMessage(e: WorkerCoreError): Status.FailureMessage {
    match e
    case InvalidLifecycle => Status.LifecycleInvariantFailed
    case HandshakeFailed(_) => Status.HandshakeFailed
    case TransportFailed(kind) => if kind.InvalidKeyStore? then Status.KeyStoreFailed else Status.TransportFailed
  }

  function MarkFailed(c: Core, e: WorkerCoreError): Core {
    c.(lifecycle := LifecycleState.Failed, connected := false,
       out := c.out.(status := Status.Fail(c.out.status, FailureMessage(e))))
  }

  function FailWorker(c: Core, p: Progress, e: WorkerCoreError): (Core, Progress) {
    var failure := if e == TransportFailed(InvalidKeyStore) then KeyStoreInvalid else WorkerHasFailed;
    var (c', p') := FailConnection(c, p, failure);
    (MarkFailed(c', e), p')
  }

  /** The loop gives up when nothing can wake it any more. */
  function Abandon(c: Core): Core {
    c.(out := c.out.(status := Status.Fail(c.out.status, Status.LoopFailed)))
  }

  function CleanUpAfterFailure(c: Core, now: Duration, answers: CleanupAnswers): Core {
    CleanUp(StopReporting(c), ClosePlan(WithoutNeutral), now, false, answers)
  }

  function NewCore(mode: Mode, period: Period): Core {
    Core(mode, LifecycleState.Open, NEUTRAL, Policy(period, None, None), None,
         Outbound(NEW_SENDER, Status.CONFIGURED.(lifecycle := LifecycleState.Open), []), NOTHING_OBSERVED,
         Sessions(0, None), None, None, false)
  }
}
