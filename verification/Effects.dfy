/** What each action of the worker does to the transport trace and the sender: at most one report, prepared from the
    sender's own state, and committed only if it was accepted. */
module Effects {
  import opened Types
  import opened Clock
  import opened Command
  import opened Handshakes
  import opened Input
  import opened Lifecycle
  import Invariant
  import opened Machine
  import opened Output
  import opened PeriodicPolicies
  import opened Protocol
  import opened Readiness
  import opened Scheduler
  import opened Sender
  import opened Session
  import opened Transport

  datatype Effect =
    | Silent
    | Called(call: PortCall)
    | Reported(capacityRead: bool, report: Report, outcome: SendOutcome)

  /** The protocol session after a report was accepted, told from the report alone. */
  function AfterReport(session: ProtocolSession, report: Report): ProtocolSession {
    match report
    case InputReport(_, _, Orientation(encoding)) => session.(imu := encoding)
    case InputReport(_, _, _) => session.(imu := AtRest)
    case ReplyReport(timer, state, id, payload) =>
      match PrepareSubcommand(id, payload, state, timer, session)
      case Ok(prepared) => prepared.session
      case Err(_) => session
  }

  predicate Applies(o: Outbound, o': Outbound, e: Effect) {
    match e
    case Silent => o'.sender == o.sender && o'.wire == o.wire
    case Called(call) => (call.Polled? || call.CapacityRead?) && o'.sender == o.sender && o'.wire == o.wire + [call]
    case Reported(capacityRead, report, outcome) =>
      && report.timer == o.sender.timer
      && o'.wire == o.wire + (if capacityRead then [CapacityRead(true)] else []) + [Sent(report, outcome)]
      && o'.sender == if outcome.Accepted? then CommitReport(o.sender, report, AfterReport(o.sender.session, report))
                      else o.sender
  }

  /** The terminal error an effect is: a failed send other than a rejection, or a failed poll. */
  function TerminalError(e: Effect): Option<WorkerCoreError> {
    match e
    case Reported(_, _, Refused(kind)) => if kind != SendRejected then Some(TransportFailed(kind)) else None
    case Called(Polled(Err(kind))) => Some(TransportFailed(kind))
    case _ => None
  }

  /** The input state a Direct worker holds after an effect: that of an accepted input report, or the one before. */
  function Committed(input: InputState, e: Effect): InputState {
    if e.Reported? && e.outcome.Accepted? && e.report.InputReport? then e.report.state else input
  }

  function InputEffect(o: Outbound, state: InputState, nowNs: U64, outcome: SendOutcome): (e: Effect)
    ensures e.Reported? && e.report.InputReport? && e.report.state == state && e.outcome == outcome
  {
    Reported(false, InputReport(o.sender.timer, state, EncodeImu(o.sender.session, state.imu, nowNs).0), outcome)
  }

  lemma SendInputApplies(o: Outbound, state: InputState, nowNs: U64, outcome: SendOutcome)
    ensures Applies(o, SendInput(o, state, nowNs, outcome), InputEffect(o, state, nowNs, outcome))
  {
  }

  lemma CommandEffect(c: Core, p: Progress, command: InputCommand, now: Duration, outcome: SendOutcome)
    returns (e: Effect)
    ensures var o := InputStep(c, p, command, now, outcome);
            && Applies(c.out, o.core.out, e) && o.fault == TerminalError(e)
            && (c.mode.Direct? ==> o.core.input == Committed(c.input, e))
            && (e.Reported? ==> e.report.InputReport? && c.lifecycle.Ready?)
  {
    e := Silent;
    if InputCommandError(c.lifecycle).None? {
      if c.mode.Periodic? {
        e := PeriodicEffect(c, command, now, outcome);
      } else {
        e := DirectEffect(c, command, now, outcome);
      }
    }
  }

  /** A command's own progress carries exactly the fault of its send. */
  predicate Faults(cp: CommandProgress, e: Effect) {
    (if cp.Complete? then CommandFault(cp.result) else None) == TerminalError(e)
  }

  lemma PeriodicEffect(c: Core, command: InputCommand, now: Duration, outcome: SendOutcome) returns (e: Effect)
    ensures var (c', cp) := PeriodicInput(c, command, now, outcome);
            && Applies(c.out, c'.out, e) && Faults(cp, e)
            && (e.Reported? ==> e.report.InputReport? && c.lifecycle.Ready?)
  {
    e := Silent;
    if command.Tap? && Plan(c.input, command.buttons, command.duration).Ok? && c.lifecycle.Ready? {
      var plan := Plan(c.input, command.buttons, command.duration).value;
      var staged := c.out.(status := c.out.status.(snapshot := plan.pressed));
      SendInputApplies(staged, plan.pressed, ProtocolTimestamp(now), outcome);
      e := InputEffect(staged, plan.pressed, ProtocolTimestamp(now), outcome);
    }
  }

  lemma DirectSendEffect(c: Core, candidate: InputState, now: Duration, outcome: SendOutcome) returns (e: Effect)
    ensures var (c', cp) := DirectSend(c, candidate, now, outcome);
            && Applies(c.out, c'.out, e) && Faults(cp, e) && c'.input == Committed(c.input, e)
            && e.Reported? && e.report.InputReport? && e.report.state == candidate && e.outcome == outcome
  {
    SendInputApplies(c.out, candidate, ProtocolTimestamp(now), outcome);
    e := InputEffect(c.out, candidate, ProtocolTimestamp(now), outcome);
  }

  lemma DirectEffect(c: Core, command: InputCommand, now: Duration, outcome: SendOutcome) returns (e: Effect)
    ensures var (c', cp) := DirectInput(c, command, now, outcome);
            && Applies(c.out, c'.out, e) && Faults(cp, e) && c'.input == Committed(c.input, e)
            && (e.Reported? ==> e.report.InputReport? && c.lifecycle.Ready?)
  {
    e := Silent;
    if c.lifecycle.Ready? {
      var candidate :=
        match command
        case Candidate(state) => Ok(state)
        case Neutral => Ok(NEUTRAL)
        case Press(buttons) => Pressed(c.input, buttons)
        case Release(buttons) => Released(c.input, buttons)
        case Tap(buttons, duration) =>
          match Plan(c.input, buttons, duration)
          case Ok(plan) => Ok(plan.pressed)
          case Err(error) => Err(error);
      if candidate.Ok? {
        e := DirectSendEffect(c, candidate.value, now, outcome);
      }
    }
  }

  lemma ReplyEffect(c: Core, raw: seq<Byte>, outcome: SendOutcome) returns (e: Effect)
    ensures var (c', completion) := ReplyToOutput(c, raw, outcome);
            && Applies(c.out, c'.out, e) && c'.input == c.input
            && (e.Reported? ==> e.report.ReplyReport?)
            && (completion == Ok(ReplyAccepted) <==> e.Reported? && e.outcome.Accepted?)
            && (if completion.Err? then OperationFault(OutputFailed(completion.error)) else None) == TerminalError(e)
  {
    e := Silent;
    match ParseOutputReport(raw)
    case Ok(Subcommand(id, payload)) =>
      var prepared := PrepareReply(c.out.sender, id, payload, c.input);
      if prepared.Ok? {
        e := Reported(false, prepared.value.report, outcome);
        PreparedSessionIsReplayed(c.out.sender, id, payload, c.input);
      }
    case _ =>
  }

  /** A prepared reply says which session it leads to. */
  lemma PreparedSessionIsReplayed(sender: SenderState, id: Byte, payload: seq<Byte>, current: InputState)
    requires PrepareReply(sender, id, payload, current).Ok?
    ensures var prepared := PrepareReply(sender, id, payload, current).value;
            && prepared.report.ReplyReport? && prepared.report.timer == sender.timer
            && prepared.session == AfterReport(sender.session, prepared.report)
  {
  }

  lemma EventEffect(c: Core, p: Progress, event: SessionEvent, now: Duration, outcome: SendOutcome) returns (e: Effect)
    ensures var o := HandleEvent(c, p, event, now, outcome);
            && Applies(c.out, o.core.out, e) && o.core.input == c.input && o.fault == TerminalError(e)
            && (e.Reported? ==> e.report.ReplyReport? && IsCurrent(c, event))
  {
    e := Silent;
    if IsCurrent(c, event) && event.event.HidOutput? {
      e := ReplyEffect(c, event.event.payload, outcome);
    }
  }

  /** The attempt's next bootstrap point does not fit. */
  predicate BootstrapOverflows(c: Core, now: Duration) {
    c.connection.Some? && c.connection.value.handshake.Some? && RetryOverflows(c.connection.value.handshake.value, now)
  }

  predicate OverflowFails(o: Outcome, now: Duration) {
    o.fault == Some(HandshakeFailed(DeadlineOverflow)) && BootstrapOverflows(o.core, now)
  }

  /** Driving sends at most one neutral bootstrap report, and only before the deadline of the operation. */
  lemma DriveEffect(c: Core, p: Progress, now: Duration, outcome: SendOutcome) returns (e: Effect)
    requires Invariant.Live(c)
    ensures var o := Drive(c, p, now, outcome);
            && Applies(c.out, o.core.out, e) && o.core.input == c.input
            && (o.fault == TerminalError(e) || (e.Silent? && OverflowFails(o, now)))
            && (e.Reported? ==> e.report.InputReport? && e.report.state == NEUTRAL && c.connection.Some?
                                && now < c.connection.value.gate.deadline)
  {
    e := Silent;
    if c.connection.Some? && InactiveError(c.connection.value.gate, now, c.sessions).None? {
      e := HandshakeEffect(c, p, now, outcome);
      var o := DriveHandshake(c, p, now, outcome);
      if o.fault.None? {
        Invariant.DriveHandshakePreservesLive(c, p, now, outcome);
        SettlingIsSilent(o.core, o.progress, now);
      }
    }
  }

  lemma HandshakeEffect(c: Core, p: Progress, now: Duration, outcome: SendOutcome) returns (e: Effect)
    requires c.connection.Some?
    ensures var o := DriveHandshake(c, p, now, outcome);
            && Applies(c.out, o.core.out, e) && o.core.input == c.input
            && (o.fault == TerminalError(e) || (e.Silent? && OverflowFails(o, now)))
            && (e.Reported? ==> e.report.InputReport? && e.report.state == NEUTRAL)
  {
    e := Silent;
    if c.connection.value.handshake.Some? {
      var a := c.connection.value;
      var observedAny := c.observed.ids != iset{};
      DueBootstrapsAreTried(a.handshake.value, c.out, a.sessionId, now, observedAny, outcome);
      Invariant.ShakeSendsOrNot(a.handshake.value, c.out, a.sessionId, now, observedAny, outcome);
      var (_, r) := StepHandshake(c, now, outcome);
      if r.Ok? && r.value.BootstrapAttempted? {
        SendInputApplies(c.out, NEUTRAL, ProtocolTimestamp(now), outcome);
        AttemptReportsOutcome(a.handshake.value, c.out, a.sessionId, now, observedAny, outcome);
        e := InputEffect(c.out, NEUTRAL, ProtocolTimestamp(now), outcome);
      }
    }
  }

  lemma AttemptReportsOutcome(h: Shake, o: Outbound, id: U64, now: Duration, observedAny: bool, outcome: SendOutcome)
    ensures var (_, _, r) := StepShake(h, o, id, now, observedAny, outcome);
            r.Ok? && r.value.BootstrapAttempted? ==> r.value.outcome == outcome
  {
  }

  lemma SettlingIsSilent(c: Core, p: Progress, now: Duration)
    requires Invariant.Live(c) && c.connection.Some?
    ensures var o := SettleReadiness(c, p, now);
            o.core.out.sender == c.out.sender && o.core.out.wire == c.out.wire && o.core.input == c.input && o.fault.None?
  {
  }

  lemma ReleaseEffect(c: Core, p: Progress, now: Duration, outcome: SendOutcome) returns (e: Effect)
    requires Invariant.Live(c) && c.tap.Some?
    ensures var o := FinishTap(c, p, now, outcome);
            && Applies(c.out, o.core.out, e) && o.fault == TerminalError(e)
            && (c.mode.Direct? ==> o.core.input == Committed(c.input, e))
            && e.Reported? && e.report.InputReport? && e.report.state == c.tap.value.released
  {
    if c.mode.Periodic? {
      var released := c.tap.value.released;
      var staged := c.out.(status := c.out.status.(snapshot := released));
      SendInputApplies(staged, released, ProtocolTimestamp(now), outcome);
      e := InputEffect(staged, released, ProtocolTimestamp(now), outcome);
    } else {
      e := DirectSendEffect(c.(tap := None), c.tap.value.released, now, outcome);
    }
  }

  lemma AutomaticEffect(c: Core, now: Duration, capacity: bool, outcome: SendOutcome) returns (e: Effect)
    ensures var (c', r) := SendAutomatic(c, now, capacity, outcome);
            && Applies(c.out, c'.out, e) && c'.input == c.input
            && (if r.Err? then PeriodicFault(r.error) else None) == TerminalError(e)
            && (e.Reported? ==> e.report.InputReport? && e.report.state == c.input)
  {
    e := Silent;
    var (_, decision) := DecideDue(c.policy, now, capacity);
    if ReadsCapacity(c.policy, now) {
      e := Called(CapacityRead(capacity));
      var read := c.out.(wire := c.out.wire + [CapacityRead(capacity)]);
      if decision.Send? {
        SendInputApplies(read, c.input, ProtocolTimestamp(now), outcome);
        e := InputEffect(read, c.input, ProtocolTimestamp(now), outcome).(capacityRead := true);
      }
    }
  }

  lemma DueEffect(c: Core, p: Progress, now: Duration, capacity: bool, outcome: SendOutcome) returns (e: Effect)
    requires Invariant.Live(c)
    ensures var o := RunDue(c, p, now, capacity, outcome);
            && Applies(c.out, o.core.out, e) && o.fault == TerminalError(e)
            && (c.mode.Direct? ==> o.core.input == Committed(c.input, e))
            && (e.Reported? ==> e.report.InputReport?)
  {
    e := Silent;
    if TapDue(c, now) {
      e := ReleaseEffect(c, p, now, outcome);
    } else if c.mode.Periodic? {
      e := AutomaticEffect(c, now, capacity, outcome);
    }
  }

  /** A connect command makes one start call, and begins a session only if the transport agreed while the worker was
      open: then the sender starts over, from neutral input. */
  predicate Begins(c: Core, error: CallResult) {
    error.None? && c.lifecycle.Open?
  }

  lemma ConnectEffect(c: Core, p: Progress, kind: ConnectionCommandKind, timeout: Duration, error: CallResult,
                      now: Duration)
    ensures var o := ConnectCommand(c, p, kind, timeout, error, now);
            && o.fault.None? && o.core.out.wire == c.out.wire + [StartCall(kind, error)]
            && (if Begins(c, error)
                then o.core.out.sender == c.out.sender.(timer := 0, session := DEFAULT_SESSION) && o.core.input == NEUTRAL
                else o.core.out.sender == c.out.sender && o.core.input == c.input)
  {
  }
}
