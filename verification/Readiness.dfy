/** The gate between a connection attempt and a ready controller (`src/runtime/readiness.rs`). */
module Readiness {
  import opened Types
  import opened Handshakes
  import opened PeriodicPolicies
  import opened Protocol
  import opened Scheduler
  import opened Sender
  import opened Session

  datatype ReadinessWait = ForHandshake | ForProtocol | ForHoldoff(until: Duration)

  datatype ReadinessProgress = Pending(wait: ReadinessWait) | ReadyFor(sessionId: U64)

  datatype ReadinessError =
    | StaleSession(expected: U64, current: Option<U64>)
    | HandshakeSessionMismatch(expected: U64, actual: U64)
    | ConnectionLost(reason: Option<Byte>)
    | TimedOut
    | ReadinessScheduler(error: SchedulerError)

  datatype Gate = Gate(sessionId: U64, deadline: Duration, completion: Option<U64>)

  function InactiveError(g: Gate, now: Duration, sessions: Sessions): Option<ReadinessError> {
    if sessions.current != Some(g.sessionId) then Some(StaleSession(g.sessionId, sessions.current))
    else if now < g.deadline then None
    else Some(TimedOut)
  }

  /** The gate and the handshake after collecting a completion, and whether one is held. */
  function Collect(g: Gate, h: Option<Shake>): (Gate, Option<Shake>, Result<bool, ReadinessError>) {
    if g.completion.Some? then (g, h, Ok(true))
    else if h.None? || !h.value.stopped then (g, h, Ok(false))
    else if h.value.sessionId != g.sessionId then
      (g, h, Err(HandshakeSessionMismatch(g.sessionId, h.value.sessionId)))
    else (g.(completion := Some(h.value.sessionId)), None, Ok(true))
  }

  datatype Evaluation =
    Evaluation(gate: Gate, handshake: Option<Shake>, policy: Policy, result: Result<ReadinessProgress, ReadinessError>)

  function EvaluateDirect(g: Gate, h: Option<Shake>, policy: Policy, now: Duration, sessions: Sessions,
                          session: ProtocolSession): Evaluation
  {
    match InactiveError(g, now, sessions)
    case Some(error) => Evaluation(g, h, policy, Err(error))
    case None =>
      match Collect(g, h)
      case (g', h', Err(error)) => Evaluation(g', h', policy, Err(error))
      case (g', h', Ok(false)) => Evaluation(g', h', policy, Ok(Pending(ForHandshake)))
      case (g', h', Ok(true)) =>
        if !session.ProtocolReady() then Evaluation(g', h', policy, Ok(Pending(ForProtocol)))
        else Evaluation(g'.(completion := None), h', policy, Ok(ReadyFor(g'.completion.value)))
  }

  function EvaluatePeriodic(g: Gate, h: Option<Shake>, policy: Policy, now: Duration, sessions: Sessions,
                            session: ProtocolSession): Evaluation
  {
    match InactiveError(g, now, sessions)
    case Some(error) => Evaluation(g, h, policy, Err(error))
    case None =>
      match Collect(g, h)
      case (g', h', Err(error)) => Evaluation(g', h', policy, Err(error))
      case (g', h', Ok(false)) => Evaluation(g', h', policy, Ok(Pending(ForHandshake)))
      case (g', h', Ok(true)) =>
        if session.reportMode != Some(STANDARD_FULL) then Evaluation(g', h', policy, Ok(Pending(ForProtocol)))
        else
          match StartWhenUnheld(policy, now)
          case (p', Err(error)) => Evaluation(g', h', p', Err(ReadinessScheduler(error)))
          case (p', Ok(start)) =>
            if !session.ProtocolReady() then Evaluation(g', h', p', Ok(Pending(ForProtocol)))
            else if start.StartHeldOff? then Evaluation(g', h', p', Ok(Pending(ForHoldoff(start.until))))
            else Evaluation(g'.(completion := None), h', p', Ok(ReadyFor(g'.completion.value)))
  }

  ghost function Value(h: Handshake?): Option<Shake>
    reads h, if h == null then {} else h.Repr()
  {
    if h == null then None else Some(h.State())
  }

  class ReadinessGate {
    const sessionId: U64
    const operationDeadline: Duration
    var handshake: Option<U64>

    constructor (sessionId: U64, operationDeadline: Duration)
      ensures State() == Gate(sessionId, operationDeadline, None)
    {
      this.sessionId := sessionId;
      this.operationDeadline := operationDeadline;
      handshake := None;
    }

    function State(): Gate
      reads this
    {
      Gate(sessionId, operationDeadline, handshake)
    }

    method EnsureActive(now: Duration, sessions: ConnectionSessions) returns (error: Option<ReadinessError>)
      ensures error == InactiveError(State(), now, sessions.State())
    {
      var current := sessions.current;
      if current != Some(sessionId) {
        return Some(StaleSession(sessionId, current));
      }
      if now < operationDeadline {
        return None;
      }
      error := Some(TimedOut);
    }

    method CollectHandshake(shake: Handshake?) returns (kept: Handshake?, r: Result<bool, ReadinessError>)
      modifies this
      ensures kept == shake || kept == null
      ensures (State(), Value(kept), r) == Collect(old(State()), old(Value(shake)))
    {
      kept := shake;
      if handshake.Some? {
        return kept, Ok(true);
      }
      if shake == null {
        return kept, Ok(false);
      }
      var completion := shake.Completion();
      if completion.None? {
        return kept, Ok(false);
      }
      if completion.value != sessionId {
        return kept, Err(HandshakeSessionMismatch(sessionId, completion.value));
      }
      handshake := completion;
      return null, Ok(true);
    }

    method TakeReadySession() returns (id: U64)
      requires handshake.Some?
      modifies this
      ensures handshake == None && id == old(handshake).value
    {
      id := handshake.value;
      handshake := None;
    }

    method EvaluateForDirect(now: Duration, sessions: ConnectionSessions, shake: Handshake?, sender: ReportSender,
                             ghost policy: Policy)
      returns (kept: Handshake?, r: Result<ReadinessProgress, ReadinessError>)
      modifies this
      ensures kept == shake || kept == null
      ensures Evaluation(State(), Value(kept), policy, r)
           == EvaluateDirect(old(State()), old(Value(shake)), policy, now, sessions.State(), sender.session)
    {
      kept := shake;
      var inactive := EnsureActive(now, sessions);
      if inactive.Some? {
        return kept, Err(inactive.value);
      }
      var collected;
      kept, collected := CollectHandshake(shake);
      if collected.Err? {
        return kept, Err(collected.error);
      }
      if !collected.value {
        return kept, Ok(Pending(ForHandshake));
      }
      if !sender.session.ProtocolReady() {
        return kept, Ok(Pending(ForProtocol));
      }
      var id := TakeReadySession();
      r := Ok(ReadyFor(id));
    }

    /** The source expects a started or held-off schedule once the protocol is ready; here that is proved. */
    method EvaluateForPeriodic(now: Duration, sessions: ConnectionSessions, shake: Handshake?, sender: ReportSender,
                               policy: PeriodicPolicy)
      returns (kept: Handshake?, r: Result<ReadinessProgress, ReadinessError>)
      modifies this, policy
      ensures kept == shake || kept == null
      ensures fresh(policy.Repr() - old(policy.Repr()))
      ensures Evaluation(State(), Value(kept), policy.Value(), r)
           == EvaluatePeriodic(old(State()), old(Value(shake)), old(policy.Value()), now, sessions.State(), sender.session)
    {
      kept := shake;
      var inactive := EnsureActive(now, sessions);
      if inactive.Some? {
        return kept, Err(inactive.value);
      }
      var collected;
      kept, collected := CollectHandshake(shake);
      if collected.Err? {
        return kept, Err(collected.error);
      }
      if !collected.value {
        return kept, Ok(Pending(ForHandshake));
      }
      var reporting: Option<PeriodicStart> := None;
      if sender.session.reportMode == Some(STANDARD_FULL) {
        var started := policy.StartIfUnheld(now);
        if started.Err? {
          return kept, Err(ReadinessScheduler(started.error));
        }
        reporting := Some(started.value);
      }
      if !sender.session.ProtocolReady() {
        return kept, Ok(Pending(ForProtocol));
      }
      match reporting.value {
        case StartHeldOff(until) =>
          r := Ok(Pending(ForHoldoff(until)));
        case Started(_) =>
          var id := TakeReadySession();
          r := Ok(ReadyFor(id));
      }
    }
  }
}
