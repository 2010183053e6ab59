/** Value types shared by every component: machine integers, durations and controller input states. */
module Types {
  datatype Option<+T> = None | Some(value: T)

  datatype Result<+T, +E> = Ok(value: T) | Err(error: E)

  type Byte = bv8

  const U64_MAX: nat := 18446744073709551615
  const NANOS_PER_SECOND: nat := 1_000_000_000
  /** The largest representable duration, in nanoseconds: `u64::MAX` seconds plus 999,999,999 ns. */
  const DURATION_MAX: nat := 18446744073709551615999999999

  type U64 = n: nat | n <= U64_MAX
  type Duration = n: nat | n <= DURATION_MAX
  type Period = n: nat | 0 < n <= DURATION_MAX witness 1

  /** The u64 addition used by every acceptance counter. */
  function SaturatingIncrement(n: U64): U64 {
    if n < U64_MAX then n + 1 else n
  }

  /** A logical button, named by its bit position in the 32-bit button set. */
  type Button = n: nat | n < 32

  datatype Stick = Stick(x: nat, y: nat)
  datatype ImuFrame = ImuFrame(accel: seq<int>, gyro: seq<int>)

  const CENTER: Stick := Stick(0x800, 0x800)
  const NEUTRAL_FRAME: ImuFrame := ImuFrame([0, 0, 0], [0, 0, 0])

  datatype InputState = InputState(buttons: set<Button>, left: Stick, right: Stick, imu: seq<ImuFrame>)

  const NEUTRAL: InputState := InputState({}, CENTER, CENTER, [NEUTRAL_FRAME, NEUTRAL_FRAME, NEUTRAL_FRAME])

  datatype TransportErrorKind =
    | OpenFailed | InvalidControllerIdentity | IdentityMismatch | AdapterIdentityRecoveryRequired
    | UnsupportedController | InvalidKeyStore | NoBond | Closed | SendRejected | DrainTimedOut
    | EventQueueOverflow | SourceTerminated | CloseFailed

  datatype LifecycleState = Configured | Open | Connecting | Ready | Closing | Closed | Failed

  datatype Mode = Periodic | Direct
}
