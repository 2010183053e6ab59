/** The pure protocol engine: output report parsing, session state and prepared replies
    (`crates/swbt-core/src/protocol`). Report contents are symbolic: a report names what it encodes. */
module Protocol {
  import opened Types

  type Timer = n: nat | n < 256

  function NextTimer(t: Timer): Timer {
    if t == 255 then 0 else t + 1
  }

  datatype ImuMode = Disabled | Standard | Quaternion(variant: Byte)

  /** Quaternion integration, kept as the history of the samples it consumed. */
  datatype ImuEncoding = AtRest | Advanced(previous: ImuEncoding, frames: seq<ImuFrame>, nowNs: U64)

  datatype MotionBlock = NoMotion | RawFrames(frames: seq<ImuFrame>) | Orientation(encoding: ImuEncoding)

  datatype ProtocolSession = ProtocolSession(
    reportMode: Option<Byte>, playerLights: Option<Byte>, imuMode: ImuMode, imu: ImuEncoding, vibration: bool)
  {
    predicate ProtocolReady() {
      reportMode == Some(STANDARD_FULL) && playerLights.Some? && playerLights.value != 0
    }
  }

  const STANDARD_FULL: Byte := 0x30
  const DEFAULT_SESSION: ProtocolSession := ProtocolSession(None, None, Disabled, AtRest, false)

  datatype Report =
    | InputReport(timer: Timer, state: InputState, motion: MotionBlock)
    | ReplyReport(timer: Timer, state: InputState, id: Byte, payload: seq<Byte>)

  function EncodeImu(session: ProtocolSession, frames: seq<ImuFrame>, nowNs: U64): (MotionBlock, ImuEncoding) {
    match session.imuMode
    case Disabled => (NoMotion, AtRest)
    case Standard => (RawFrames(frames), AtRest)
    case Quaternion(_) =>
      var next := Advanced(session.imu, frames, nowNs);
      (Orientation(next), next)
  }

  datatype ProtocolError =
    | EmptyReport | UnsupportedReport(report: Byte) | TruncatedReport(report: Byte)
    | MissingArgument(id: Byte) | InvalidNfcIrMcuState(requested: Byte)
    | TruncatedSpiRead | SpiReadTooLarge | SpiAddressOutOfRange
    | UnsupportedImuMode(requested: Byte) | InvalidVibration(requested: Byte) | UnsupportedSubcommand(id: Byte)

  datatype OutputReport = Rumble | Subcommand(id: Byte, payload: seq<Byte>)

  function ParseOutputReport(raw: seq<Byte>): Result<OutputReport, ProtocolError> {
    if raw == [] then Err(EmptyReport)
    else if raw[0] == 0x01 then
      if |raw| < 11 then Err(TruncatedReport(raw[0])) else Ok(Subcommand(raw[10], raw[11..]))
    else if raw[0] == 0x10 then
      if |raw| < 10 then Err(TruncatedReport(raw[0])) else Ok(Rumble)
    else Err(UnsupportedReport(raw[0]))
  }

  /** The 32-bit little-endian flash address at the head of a read request. */
  function SpiAddress(payload: seq<Byte>): bv32
    requires 4 <= |payload|
  {
    (payload[0] as bv32) | ((payload[1] as bv32) << 8) | ((payload[2] as bv32) << 16) | ((payload[3] as bv32) << 24)
  }

  function CheckSpiRead(payload: seq<Byte>): Option<ProtocolError> {
    if |payload| < 5 then Some(TruncatedSpiRead)
    else if payload[4] > 0x1D then Some(SpiReadTooLarge)
    else
      var address := SpiAddress(payload);
      var end := address + (payload[4] as bv32);
      if end < address || 0x80000 < end then Some(SpiAddressOutOfRange) else None
  }

  function ImuModeFromWire(requested: Byte): ImuMode
    requires requested <= 5
  {
    if requested == 0 then Disabled else if requested == 1 then Standard else Quaternion(requested)
  }

  /** The session a stateful subcommand asks for. Choosing an IMU mode restarts its integration. */
  function NextSession(session: ProtocolSession, id: Byte, requested: Byte): Result<ProtocolSession, ProtocolError> {
    if id == 0x03 then Ok(session.(reportMode := Some(requested)))
    else if id == 0x30 then Ok(session.(playerLights := Some(requested)))
    else if id == 0x40 then
      if requested <= 5 then Ok(session.(imuMode := ImuModeFromWire(requested), imu := AtRest))
      else Err(UnsupportedImuMode(requested))
    else if requested <= 1 then Ok(session.(vibration := requested == 1))
    else Err(InvalidVibration(requested))
  }

  /** A reply ready to send, with the session it commits if it is accepted. */
  datatype PreparedReply = PreparedReply(report: Report, session: ProtocolSession)

  function PrepareSubcommand(id: Byte, payload: seq<Byte>, state: InputState, timer: Timer, session: ProtocolSession)
    : Result<PreparedReply, ProtocolError>
  {
    var reply := ReplyReport(timer, state, id, payload);
    if id == 0x02 || id == 0x04 || id == 0x08 || id == 0x21 then Ok(PreparedReply(reply, session))
    else if id == 0x22 then
      if payload == [] then Err(MissingArgument(id))
      else if payload[0] > 0x02 then Err(InvalidNfcIrMcuState(payload[0]))
      else Ok(PreparedReply(reply, session))
    else if id == 0x10 then
      match CheckSpiRead(payload)
      case Some(error) => Err(error)
      case None => Ok(PreparedReply(reply, session))
    else if id == 0x03 || id == 0x30 || id == 0x40 || id == 0x48 then
      if payload == [] then Err(MissingArgument(id))
      else
        match NextSession(session, id, payload[0])
        case Ok(next) => Ok(PreparedReply(reply, next))
        case Err(error) => Err(error)
    else Err(UnsupportedSubcommand(id))
  }
}
