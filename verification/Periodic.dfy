/** The periodic report policy: scheduler start, reply holdoff and automatic sends (`src/runtime/periodic.rs`). */
module PeriodicPolicies {
  import opened Types
  import opened Clock
  import opened Scheduler
  import opened Sender
  import opened State
  import opened Transport

  /** 300 ms, in nanoseconds. */
  const REPLY_HOLDOFF: Duration := 300_000_000

  datatype Policy = Policy(period: Period, schedule: Option<Schedule>, holdoff: Option<Duration>) {
    predicate Held(now: Duration) {
      holdoff.Some? && now < holdoff.value
    }

    function NextDeadline(): Option<Duration> {
      match schedule
      case None => None
      case Some(s) => Some(if holdoff.Some? && s.next < holdoff.value then holdoff.value else s.next)
    }
  }

  datatype PeriodicStart = StartHeldOff(until: Duration) | Started(firstDeadline: Duration)

  datatype AutomaticInput =
    | NothingDue
    | HeldOff(until: Duration)
    | Backpressured(skipped: U64)
    | AutomaticSend(outcome: SendOutcome, skipped: U64)

  datatype PeriodicError =
    | PeriodicNotReady
    | PeriodicScheduler(error: SchedulerError)
    | PeriodicTransport(kind: TransportErrorKind, laterTerminal: Option<TransportErrorKind>)

  function Stopped(p: Policy): Policy {
    p.(schedule := None, holdoff := None)
  }

  /** Starts the schedule unless the holdoff still runs. A failed start leaves the policy as it was. */
  function StartWhenUnheld(p: Policy, now: Duration): (Policy, Result<PeriodicStart, SchedulerError>) {
    if p.Held(now) then (p, Ok(StartHeldOff(p.holdoff.value)))
    else if p.schedule.Some? then (p, Ok(Started(p.schedule.value.next)))
    else
      match Start(now, p.period)
      case Ok(s) => (p.(schedule := Some(s)), Ok(Started(s.next)))
      case Err(e) => (p, Err(e))
  }

  /** Every accepted reply extends the holdoff to at least 300 ms after its completion. */
  function RecordReply(p: Policy, completedAt: Duration): (Policy, Option<SchedulerError>) {
    var candidate := completedAt + REPLY_HOLDOFF;
    if candidate > DURATION_MAX then (p, Some(DeadlineOverflow))
    else if p.Held(candidate) then (p, None)
    else (p.(holdoff := Some(candidate)), None)
  }

  datatype DueDecision = Send(skipped: U64) | Answer(answer: Result<AutomaticInput, PeriodicError>)

  /** What a due check decides before anything is sent. */
  function DecideDue(p: Policy, now: Duration, capacity: bool): (Policy, DueDecision)
  {
    if p.schedule.None? then (p, Answer(Err(PeriodicNotReady)))
    else if p.Held(now) then (p, Answer(Ok(HeldOff(p.holdoff.value))))
    else
      match Tick(p.schedule.value, now)
      case Err(e) => (p, Answer(Err(PeriodicScheduler(e))))
      case Ok((s, NotDue)) => (p, Answer(Ok(NothingDue)))
      case Ok((s, Due(skipped))) =>
        var served := p.(schedule := Some(s));
        if capacity then (served, Send(skipped)) else (served, Answer(Ok(Backpressured(skipped))))
  }

  /** Whether a due check reads the transport's capacity: only for a served tick. */
  predicate ReadsCapacity(p: Policy, now: Duration)
  {
    p.schedule.Some? && !p.Held(now) &&
    Tick(p.schedule.value, now).Ok? && Tick(p.schedule.value, now).value.1.Due?
  }

  function SendDue(p: Policy, o: Outbound, now: Duration, state: InputState, capacity: bool, outcome: SendOutcome)
    : (Policy, Outbound, Result<AutomaticInput, PeriodicError>)
  {
    var (p', decision) := DecideDue(p, now, capacity);
    var read := if ReadsCapacity(p, now) then o.(wire := o.wire + [CapacityRead(capacity)]) else o;
    match decision
    case Answer(answer) => (p', read, answer)
    case Send(skipped) =>
      var sent := SendInput(read, state, ProtocolTimestamp(now), outcome);
      (p', sent,
       if outcome.Accepted? then Ok(AutomaticSend(outcome, skipped)) else Err(PeriodicTransport(outcome.kind, None)))
  }

  class PeriodicPolicy {
    const period: Period
    var scheduler: ReportScheduler?
    var replyHoldoffUntil: Option<Duration>

    ghost function Repr(): set<object>
      reads this
    {
      if scheduler == null then {this} else {this, scheduler}
    }

    ghost function Value(): Policy
      reads this, scheduler
    {
      Policy(period, if scheduler == null then None else Some(scheduler.State()), replyHoldoffUntil)
    }

    constructor (period: Period)
      ensures Value() == Policy(period, None, None) && fresh(Repr())
    {
      this.period := period;
      scheduler := null;
      replyHoldoffUntil := None;
    }

    method StartIfUnheld(now: Duration) returns (r: Result<PeriodicStart, SchedulerError>)
      modifies this
      ensures fresh(Repr() - old(Repr()))
      ensures (Value(), r) == StartWhenUnheld(old(Value()), now)
    {
      if replyHoldoffUntil.Some? && now < replyHoldoffUntil.value {
        return Ok(StartHeldOff(replyHoldoffUntil.value));
      }
      if scheduler == null {
        var started := ReportScheduler.StartAt(now, period);
        if started.Err? {
          return Err(started.error);
        }
        scheduler := started.value;
      }
      r := Ok(Started(scheduler.nextDeadline));
    }

    method RecordOutputCompletion(completedAt: Duration, replyAccepted: bool) returns (error: Option<SchedulerError>)
      modifies this`replyHoldoffUntil
      ensures (Value(), error) == if replyAccepted then RecordReply(old(Value()), completedAt) else (old(Value()), None)
    {
      if !replyAccepted {
        return None;
      }
      if completedAt + REPLY_HOLDOFF > DURATION_MAX {
        return Some(DeadlineOverflow);
      }
      var candidate := completedAt + REPLY_HOLDOFF;
      if replyHoldoffUntil.None? || replyHoldoffUntil.value <= candidate {
        replyHoldoffUntil := Some(candidate);
      }
      error := None;
    }

    method StopSession()
      modifies this
      ensures Value() == Stopped(old(Value()))
      ensures Repr() == {this}
    {
      scheduler := null;
      replyHoldoffUntil := None;
    }

    method NextDeadline() returns (deadline: Option<Duration>)
      ensures deadline == Value().NextDeadline()
    {
      if scheduler == null {
        return None;
      }
      deadline := Some(scheduler.nextDeadline);
      if replyHoldoffUntil.Some? && scheduler.nextDeadline < replyHoldoffUntil.value {
        deadline := replyHoldoffUntil;
      }
    }

    method SendIfDue(now: Duration, store: InputStateStore, sender: ReportSender, port: TransportPort)
      returns (r: Result<AutomaticInput, PeriodicError>, ghost capacity: bool, ghost outcome: SendOutcome)
      requires sender.status.state.sessionId.Some?
      modifies scheduler, sender, sender.status, port
      ensures Repr() == old(Repr())
      ensures (Value(), sender.Out(port), r)
           == SendDue(old(Value()), old(sender.Out(port)), now, old(store.committed), capacity, outcome)
    {
      capacity, outcome := false, Accepted;
      if scheduler == null {
        return Err(PeriodicNotReady), capacity, outcome;
      }
      if replyHoldoffUntil.Some? && now < replyHoldoffUntil.value {
        return Ok(HeldOff(replyHoldoffUntil.value)), capacity, outcome;
      }
      var tick := scheduler.Step(now);
      if tick.Err? {
        return Err(PeriodicScheduler(tick.error)), capacity, outcome;
      }
      if tick.value.NotDue? {
        return Ok(NothingDue), capacity, outcome;
      }
      var available := port.InterruptSendCapacityAvailable();
      capacity := available;
      if !available {
        return Ok(Backpressured(tick.value.skipped)), capacity, outcome;
      }
      var sent := sender.SendInputReport(store.Snapshot(), ProtocolTimestamp(now), port);
      outcome := sent;
      if sent.Refused? {
        return Err(PeriodicTransport(sent.kind, None)), capacity, outcome;
      }
      r := Ok(AutomaticSend(sent, tick.value.skipped));
    }
  }
}
