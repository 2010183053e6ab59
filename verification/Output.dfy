/** Host output handling: parse, observe, prepare, reply (`src/runtime/output.rs`). */
module Output {
  import opened Types
  import opened Connection
  import opened Protocol
  import opened Sender
  import opened Transport

  datatype OutputHandling = RumbleOnly | ReplyAccepted

  datatype OutputHandlingError = OutputProtocol(error: ProtocolError) | OutputTransport(kind: TransportErrorKind)

  type OutputCompletion = Result<OutputHandling, OutputHandlingError>

  /** A subcommand is observed before its reply is prepared, so even an unanswerable one counts as seen. */
  function HandleOutput(o: Outbound, seen: Observations, current: InputState, raw: seq<Byte>, outcome: SendOutcome)
    : (Outbound, Observations, OutputCompletion)
  {
    match ParseOutputReport(raw)
    case Err(error) => (o, seen, Err(OutputProtocol(error)))
    case Ok(Rumble) => (o, seen, Ok(RumbleOnly))
    case Ok(Subcommand(id, payload)) =>
      var recorded := o.(status := o.status.(lastSubcommand := Some(id)));
      match PrepareReply(o.sender, id, payload, current)
      case Err(error) => (recorded, Observe(seen, id), Err(OutputProtocol(error)))
      case Ok(prepared) =>
        (Transmit(recorded, prepared.report, prepared.session, outcome), Observe(seen, id),
         if outcome.Accepted? then Ok(ReplyAccepted) else Err(OutputTransport(outcome.kind)))
  }

  method HandleOutputReport(raw: seq<Byte>, current: InputState, observed: ObservedSubcommands, sender: ReportSender,
                            port: TransportPort)
    returns (r: OutputCompletion, ghost outcome: SendOutcome)
    requires observed.Valid() && sender.status.state.sessionId.Some?
    modifies observed, observed.words, sender, sender.status, port
    ensures (sender.Out(port), observed.State(), r)
         == HandleOutput(old(sender.Out(port)), old(observed.State()), current, raw, outcome)
  {
    outcome := Accepted;
    var output := ParseOutputReport(raw);
    if output.Err? {
      return Err(OutputProtocol(output.error)), outcome;
    }
    match output.value {
      case Rumble =>
        r := Ok(RumbleOnly);
      case Subcommand(id, payload) =>
        var _ := observed.ObserveId(id);
        if observed.last.Some? {
          sender.status.RecordSubcommand(observed.last.value);
        }
        var prepared := PrepareReply(sender.State(), id, payload, current);
        if prepared.Err? {
          return Err(OutputProtocol(prepared.error)), outcome;
        }
        var sent := sender.SendReply(prepared.value, port);
        outcome := sent;
        r := if sent.Accepted? then Ok(ReplyAccepted) else Err(OutputTransport(sent.kind));
    }
  }
}
