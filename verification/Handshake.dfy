/** Topology observation and the bootstrap retry schedule (`src/runtime/handshake.rs`). */
module Handshakes {
  import opened Types
  import opened Clock
  import opened Connection
  import opened Scheduler
  import opened Sender
  import opened Transport

  /** One second, in nanoseconds. */
  const BOOTSTRAP_RETRY: Duration := 1_000_000_000

  datatype CompletionCondition = FirstSubcommand | UntilProtocolReady

  datatype Shake = Shake(
    sessionId: U64,
    condition: CompletionCondition,
    link: bool,
    control: bool,
    interrupt: bool,
    retry: Option<Schedule>,
    accepted: bool,
    stopped: bool)
  {
    predicate TopologyReady() {
      link && control && interrupt
    }

    function NextDeadline(): Option<Duration> {
      if stopped || retry.None? then None else Some(retry.value.next)
    }
  }

  datatype HandshakeProgress =
    | StaleHandshake
    | WaitingForTopology
    | WaitingUntil(deadline: Duration)
    | BootstrapAttempted(outcome: SendOutcome, skipped: U64)
    | SubcommandObserved

  function NewShake(sessionId: U64, condition: CompletionCondition): Shake {
    Shake(sessionId, condition, false, false, false, None, false, false)
  }

  predicate Satisfied(condition: CompletionCondition, observedAny: bool, protocolReady: bool) {
    match condition
    case FirstSubcommand => observedAny
    case UntilProtocolReady => protocolReady
  }

  function StopBootstrap(h: Shake): Shake {
    h.(retry := None, stopped := true)
  }

  function ObserveEvent(h: Shake, sessionId: U64, event: TransportEvent): Shake {
    if sessionId != h.sessionId then h
    else
      match event
      case LinkConnected => h.(link := true)
      case HidChannelOpened(Control) => h.(control := true)
      case HidChannelOpened(Interrupt) => h.(interrupt := true)
      case _ => h
  }

  function RecordAttempt(h: Shake, observedAny: bool, protocolReady: bool, outcome: SendOutcome): Shake {
    if outcome.Refused? then h
    else if Satisfied(h.condition, observedAny, protocolReady) then StopBootstrap(h.(accepted := true))
    else h.(accepted := true)
  }

  /** One attempt: a neutral report, then the completion condition on the session it left. */
  function Attempt(h: Shake, o: Outbound, now: Duration, observedAny: bool, outcome: SendOutcome): (Shake, Outbound) {
    var sent := SendInput(o, NEUTRAL, ProtocolTimestamp(now), outcome);
    (RecordAttempt(h, observedAny, sent.sender.session.ProtocolReady(), outcome), sent)
  }

  function StepShake(h: Shake, o: Outbound, sessionId: U64, now: Duration, observedAny: bool, outcome: SendOutcome)
    : (Shake, Outbound, Result<HandshakeProgress, SchedulerError>)
  {
    if sessionId != h.sessionId then (h, o, Ok(StaleHandshake))
    else if h.stopped then (h, o, Ok(SubcommandObserved))
    else if !h.TopologyReady() then (h, o, Ok(WaitingForTopology))
    else if h.accepted && Satisfied(h.condition, observedAny, o.sender.session.ProtocolReady()) then
      (StopBootstrap(h), o, Ok(SubcommandObserved))
    else StepRetry(h, o, now, observedAny, outcome)
  }

  /** The retry schedule starts at the first attempt; later attempts follow its grid. */
  function StepRetry(h: Shake, o: Outbound, now: Duration, observedAny: bool, outcome: SendOutcome)
    : (Shake, Outbound, Result<HandshakeProgress, SchedulerError>)
  {
    if h.retry.None? then
      match Start(now, BOOTSTRAP_RETRY)
      case Err(e) => (h, o, Err(e))
      case Ok(s) =>
        var (h', o') := Attempt(h.(retry := Some(s)), o, now, observedAny, outcome);
        (h', o', Ok(BootstrapAttempted(outcome, 0)))
    else
      match Tick(h.retry.value, now)
      case Err(e) => (h, o, Err(e))
      case Ok((_, NotDue)) => (h, o, Ok(WaitingUntil(h.retry.value.next)))
      case Ok((s, Due(skipped))) =>
        var (h', o') := Attempt(h.(retry := Some(s)), o, now, observedAny, outcome);
        (h', o', Ok(BootstrapAttempted(outcome, skipped)))
  }

  /** A bootstrap is still wanted: the topology is there and the completion condition is not met. */
  predicate Trying(h: Shake, sessionId: U64, observedAny: bool, protocolReady: bool) {
    && sessionId == h.sessionId && !h.stopped && h.TopologyReady()
    && !(h.accepted && Satisfied(h.condition, observedAny, protocolReady))
  }

  predicate RetryDue(h: Shake, now: Duration) {
    h.retry.Some? ==> h.retry.value.next <= now
  }

  /** The point after this attempt does not fit: one second from the first one, or the next one of its grid. */
  predicate RetryOverflows(h: Shake, now: Duration) {
    if h.retry.None? then now + 1_000_000_000 > DURATION_MAX
    else h.retry.value.next <= now && Overflows(h.retry.value, now)
  }

  function NextRetry(h: Shake, now: Duration): Schedule
    requires RetryDue(h, now) && !RetryOverflows(h, now)
  {
    if h.retry.None? then Schedule(1_000_000_000, now + 1_000_000_000)
    else Schedule(h.retry.value.period, NextPoint(h.retry.value, now))
  }

  /** A bootstrap that is wanted and due is tried: one neutral report, and the next point of the grid unless it completes
      the handshake. The step fails exactly when that point does not fit. */
  lemma DueBootstrapsAreTried(h: Shake, o: Outbound, id: U64, now: Duration, observedAny: bool, outcome: SendOutcome)
    ensures var (h', o', r) := StepShake(h, o, id, now, observedAny, outcome);
            if !Trying(h, id, observedAny, o.sender.session.ProtocolReady()) then
              o' == o && r.Ok? && !r.value.BootstrapAttempted?
            else if !RetryDue(h, now) then h' == h && o' == o && r == Ok(WaitingUntil(h.retry.value.next))
            else if RetryOverflows(h, now) then h' == h && o' == o && r == Err(DeadlineOverflow)
            else
              && o'.wire == o.wire + [Sent(InputReportOf(o.sender, NEUTRAL, now), outcome)]
              && r.Ok? && r.value.BootstrapAttempted? && r.value.outcome == outcome
              && (h'.accepted <==> h.accepted || outcome.Accepted?)
              && (h'.stopped <==>
                    outcome.Accepted? && Satisfied(h.condition, observedAny, o'.sender.session.ProtocolReady()))
              && h'.retry == if h'.stopped then None else Some(NextRetry(h, now))
  {
    if h.retry.Some? && h.retry.value.next <= now {
      DivisionIsCatchUp(h.retry.value.next, h.retry.value.period, now);
    }
  }

  class Handshake {
    const sessionId: U64
    const condition: CompletionCondition
    var linkObserved: bool
    var controlObserved: bool
    var interruptObserved: bool
    var retry: ReportScheduler?
    var bootstrapAccepted: bool
    var bootstrapStopped: bool

    ghost function Repr(): set<object>
      reads this
    {
      if retry == null then {this} else {this, retry}
    }

    ghost function State(): Shake
      reads this, retry
    {
      Shake(sessionId, condition, linkObserved, controlObserved, interruptObserved,
            if retry == null then None else Some(retry.State()), bootstrapAccepted, bootstrapStopped)
    }

    constructor (sessionId: U64, condition: CompletionCondition)
      ensures fresh(Repr()) && State() == NewShake(sessionId, condition)
    {
      this.sessionId := sessionId;
      this.condition := condition;
      linkObserved, controlObserved, interruptObserved := false, false, false;
      retry := null;
      bootstrapAccepted, bootstrapStopped := false, false;
    }

    method ObserveLink(id: U64)
      modifies this
      ensures Repr() == old(Repr())
      ensures State() == ObserveEvent(old(State()), id, LinkConnected)
    {
      if id == sessionId {
        linkObserved := true;
      }
    }

    method ObserveChannel(id: U64, channel: HidChannel)
      modifies this
      ensures Repr() == old(Repr())
      ensures State() == ObserveEvent(old(State()), id, HidChannelOpened(channel))
    {
      if id != sessionId {
        return;
      }
      match channel {
        case Control => controlObserved := true;
        case Interrupt => interruptObserved := true;
      }
    }

    function Completion(): Option<U64>
      reads this
    {
      if bootstrapStopped then Some(sessionId) else None
    }

    method NextDeadline() returns (deadline: Option<Duration>)
      ensures deadline == State().NextDeadline()
    {
      if bootstrapStopped || retry == null {
        return None;
      }
      deadline := Some(retry.nextDeadline);
    }

    method Step(id: U64, now: Duration, observed: ObservedSubcommands, sender: ReportSender, port: TransportPort)
      returns (r: Result<HandshakeProgress, SchedulerError>, ghost outcome: SendOutcome)
      requires observed.Valid() && sender.status.state.sessionId.Some?
      modifies this, retry, sender, sender.status, port
      ensures fresh(Repr() - old(Repr()))
      ensures (State(), sender.Out(port), r)
           == StepShake(old(State()), old(sender.Out(port)), id, now, observed.State().ids != iset{}, outcome)
    {
      outcome := Accepted;
      if id != sessionId {
        return Ok(StaleHandshake), outcome;
      }
      if bootstrapStopped {
        return Ok(SubcommandObserved), outcome;
      }
      if !(linkObserved && controlObserved && interruptObserved) {
        return Ok(WaitingForTopology), outcome;
      }
      var nothingObserved := observed.IsEmpty();
      if bootstrapAccepted && Satisfied(condition, !nothingObserved, sender.session.ProtocolReady()) {
        retry, bootstrapStopped := null, true;
        return Ok(SubcommandObserved), outcome;
      }
      r, outcome := AttemptWhenDue(now, !nothingObserved, sender, port);
    }

    method AttemptWhenDue(now: Duration, observedAny: bool, sender: ReportSender, port: TransportPort)
      returns (r: Result<HandshakeProgress, SchedulerError>, ghost outcome: SendOutcome)
      requires sender.status.state.sessionId.Some?
      modifies this, retry, sender, sender.status, port
      ensures fresh(Repr() - old(Repr()))
      ensures (State(), sender.Out(port), r)
           == StepRetry(old(State()), old(sender.Out(port)), now, observedAny, outcome)
    {
      outcome := Accepted;
      var skipped: U64 := 0;
      if retry == null {
        var started := ReportScheduler.StartAt(now, BOOTSTRAP_RETRY);
        if started.Err? {
          return Err(started.error), outcome;
        }
        retry := started.value;
      } else {
        var deadline := retry.nextDeadline;
        if now < deadline {
          return Ok(WaitingUntil(deadline)), outcome;
        }
        var tick := retry.Step(now);
        if tick.Err? {
          return Err(tick.error), outcome;
        }
        if tick.value.NotDue? {
          return Ok(WaitingUntil(deadline)), outcome;
        }
        skipped := tick.value.skipped;
      }
      r, outcome := SendBootstrap(now, observedAny, skipped, sender, port);
    }

    method SendBootstrap(now: Duration, observedAny: bool, skipped: U64, sender: ReportSender, port: TransportPort)
      returns (r: Result<HandshakeProgress, SchedulerError>, ghost outcome: SendOutcome)
      requires sender.status.state.sessionId.Some?
      modifies this, sender, sender.status, port
      ensures (retry == null || retry == old(retry))
      ensures (State(), sender.Out(port)) == Attempt(old(State()), old(sender.Out(port)), now, observedAny, outcome)
      ensures r == Ok(BootstrapAttempted(outcome, skipped))
    {
      var result := sender.SendInputReport(NEUTRAL, ProtocolTimestamp(now), port);
      outcome := result;
      if result.Accepted? {
        bootstrapAccepted := true;
        if Satisfied(condition, observedAny, sender.session.ProtocolReady()) {
          retry, bootstrapStopped := null, true;
        }
      }
      r := Ok(BootstrapAttempted(result, skipped));
    }
  }
}
