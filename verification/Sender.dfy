/** Prepare, send, and commit on acceptance (`src/runtime/sender.rs`). */
module Sender {
  import opened Types
  import opened Protocol
  import opened Status
  import opened Transport

  datatype SenderState = SenderState(timer: Timer, session: ProtocolSession, inputs: U64, replies: U64)

  const NEW_SENDER: SenderState := SenderState(0, DEFAULT_SESSION, 0, 0)

  /** The sender together with what a send touches: the status projection and the transport trace. */
  datatype Outbound = Outbound(sender: SenderState, status: Projection, wire: seq<PortCall>)

  function Publish(status: Projection, sender: SenderState): Projection {
    status.(reportMode := sender.session.reportMode, inputs := sender.inputs, replies := sender.replies)
  }

  function CommitReport(sender: SenderState, report: Report, session: ProtocolSession): SenderState {
    SenderState(
      NextTimer(report.timer), session,
      if report.InputReport? then SaturatingIncrement(sender.inputs) else sender.inputs,
      if report.ReplyReport? then SaturatingIncrement(sender.replies) else sender.replies)
  }

  /** One send attempt: the transport sees the report, and only an acceptance moves the sender. */
  function Transmit(o: Outbound, report: Report, session: ProtocolSession, outcome: SendOutcome): Outbound {
    var wire := o.wire + [Sent(report, outcome)];
    if outcome.Accepted? then
      var sender := CommitReport(o.sender, report, session);
      Outbound(sender, Publish(o.status, sender), wire)
    else o.(wire := wire)
  }

  function SendInput(o: Outbound, state: InputState, nowNs: U64, outcome: SendOutcome): Outbound {
    var (motion, imu) := EncodeImu(o.sender.session, state.imu, nowNs);
    Transmit(o, InputReport(o.sender.timer, state, motion), o.sender.session.(imu := imu), outcome)
  }

  /** The input report of a state at a time: the sender's next timer, the state, and the motion that the host has asked
      for; orientations go on from the session's last one, up to the time in 64 bits. */
  function InputReportOf(sender: SenderState, state: InputState, now: Duration): Report {
    InputReport(sender.timer, state,
                match sender.session.imuMode
                case Disabled => NoMotion
                case Standard => RawFrames(state.imu)
                case Quaternion(_) =>
                  Orientation(Advanced(sender.session.imu, state.imu, if now <= U64_MAX then now else U64_MAX)))
  }

  function ResetSender(o: Outbound): Outbound {
    var sender := o.sender.(timer := 0, session := DEFAULT_SESSION);
    o.(sender := sender, status := Publish(o.status, sender))
  }

  function PrepareReply(sender: SenderState, id: Byte, payload: seq<Byte>, current: InputState)
    : Result<PreparedReply, ProtocolError>
  {
    PrepareSubcommand(id, payload, if sender.session.ProtocolReady() then current else NEUTRAL,
                      sender.timer, sender.session)
  }

  class ReportSender {
    var nextTimer: Timer
    var session: ProtocolSession
    var inputReportsAccepted: U64
    var repliesAccepted: U64
    const status: StatusPublisher

    constructor (status: StatusPublisher)
      ensures State() == NEW_SENDER && this.status == status
    {
      nextTimer, session := 0, DEFAULT_SESSION;
      inputReportsAccepted, repliesAccepted := 0, 0;
      this.status := status;
    }

    function State(): SenderState
      reads this
    {
      SenderState(nextTimer, session, inputReportsAccepted, repliesAccepted)
    }

    ghost function Out(port: TransportPort): Outbound
      reads this, status, port
    {
      Outbound(State(), status.state, port.trace)
    }

    /** The projection never runs ahead of the sender it mirrors. */
    ghost predicate Mirrored()
      reads this, status
    {
      status.state.inputs == inputReportsAccepted && status.state.replies == repliesAccepted
    }

    method ResetForNewSession(port: TransportPort)
      requires Mirrored()
      modifies this, status
      ensures Out(port) == ResetSender(old(Out(port)))
    {
      nextTimer, session := 0, DEFAULT_SESSION;
      PublishStatus();
    }

    method SendInputReport(state: InputState, nowNs: U64, port: TransportPort) returns (outcome: SendOutcome)
      requires status.state.sessionId.Some?
      modifies this, status, port
      ensures Out(port) == SendInput(old(Out(port)), state, nowNs, outcome)
    {
      var (motion, imu) := EncodeImu(session, state.imu, nowNs);
      outcome := SendCandidate(InputReport(nextTimer, state, motion), session.(imu := imu), port);
    }

    method SendReply(prepared: PreparedReply, port: TransportPort) returns (outcome: SendOutcome)
      requires status.state.sessionId.Some?
      modifies this, status, port
      ensures Out(port) == Transmit(old(Out(port)), prepared.report, prepared.session, outcome)
    {
      outcome := SendCandidate(prepared.report, prepared.session, port);
    }

    method SendCandidate(report: Report, candidate: ProtocolSession, port: TransportPort) returns (outcome: SendOutcome)
      requires status.state.sessionId.Some?
      modifies this, status, port
      ensures Out(port) == Transmit(old(Out(port)), report, candidate, outcome)
    {
      outcome := port.SendInterrupt(report);
      if outcome.Refused? {
        return;
      }
      nextTimer, session := NextTimer(report.timer), candidate;
      if report.InputReport? {
        inputReportsAccepted := SaturatingIncrement(inputReportsAccepted);
      } else {
        repliesAccepted := SaturatingIncrement(repliesAccepted);
      }
      PublishStatus();
    }

    method PublishStatus()
      requires status.state.sessionId.Some? || Mirrored()
      modifies status
      ensures status.state == Publish(old(status.state), State())
    {
      status.SetSenderState(session.reportMode, inputReportsAccepted, repliesAccepted);
    }
  }
}
