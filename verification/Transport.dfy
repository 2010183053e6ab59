/** The transport the worker drives, as an adversary (`src/runtime/transport/mod.rs`):
    every call may succeed or fail in any way, and the ghost trace records what it answered. */
module Transport {
  import opened Types
  import opened Protocol

  datatype HidChannel = Control | Interrupt

  datatype TransportEvent =
    | LinkConnected
    | HidChannelOpened(channel: HidChannel)
    | HidOutput(payload: seq<Byte>)
    | LinkDisconnected(reason: Option<Byte>)

  datatype SendOutcome = Accepted | Refused(kind: TransportErrorKind)

  type CallResult = Option<TransportErrorKind>

  datatype PortCall =
    | StartedPairing(error: CallResult)
    | StartedReconnect(error: CallResult)
    | Polled(events: Result<seq<TransportEvent>, TransportErrorKind>)
    | CapacityRead(available: bool)
    | Sent(report: Report, outcome: SendOutcome)
    | Drained(timeout: Duration, error: CallResult)
    | DisconnectCalled(error: CallResult)
    | PortClosed(error: CallResult)

  class TransportPort {
    ghost var trace: seq<PortCall>

    constructor ()
      ensures trace == []
    {
      trace := [];
    }

    method StartPairing() returns (error: CallResult)
      modifies this
      ensures trace == old(trace) + [StartedPairing(error)]
    {
      error := *;
      trace := trace + [StartedPairing(error)];
    }

    method StartReconnect() returns (error: CallResult)
      modifies this
      ensures trace == old(trace) + [StartedReconnect(error)]
    {
      error := *;
      trace := trace + [StartedReconnect(error)];
    }

    method Poll() returns (events: Result<seq<TransportEvent>, TransportErrorKind>)
      modifies this
      ensures trace == old(trace) + [Polled(events)]
    {
      events := *;
      trace := trace + [Polled(events)];
    }

    method InterruptSendCapacityAvailable() returns (available: bool)
      modifies this
      ensures trace == old(trace) + [CapacityRead(available)]
    {
      available := *;
      trace := trace + [CapacityRead(available)];
    }

    method SendInterrupt(report: Report) returns (outcome: SendOutcome)
      modifies this
      ensures trace == old(trace) + [Sent(report, outcome)]
    {
      outcome := *;
      trace := trace + [Sent(report, outcome)];
    }

    method DrainInterrupt(timeout: Duration) returns (error: CallResult)
      modifies this
      ensures trace == old(trace) + [Drained(timeout, error)]
    {
      error := *;
      trace := trace + [Drained(timeout, error)];
    }

    method Disconnect() returns (error: CallResult)
      modifies this
      ensures trace == old(trace) + [DisconnectCalled(error)]
    {
      error := *;
      trace := trace + [DisconnectCalled(error)];
    }

    method Close() returns (error: CallResult)
      modifies this
      ensures trace == old(trace) + [PortClosed(error)]
    {
      error := *;
      trace := trace + [PortClosed(error)];
    }
  }

  /** The activity channel holds at most one token, however many producers notify. */
  class ActivityChannel {
    var token: bool
    var connected: bool
    /** How often a receiver has waited. */
    ghost var waits: nat

    constructor ()
      ensures !token && connected && waits == 0
    {
      token, connected, waits := false, true, 0;
    }

    method Notify()
      modifies this
      ensures token && connected == old(connected) && waits == old(waits)
    {
      if !token {
        token := true;
      }
    }

    /** Takes the token, or blocks until a producer notifies or the last one is gone. */
    method Receive() returns (disconnected: bool)
      modifies this
      ensures !token && (old(token) ==> !disconnected) && waits == old(waits) + 1
    {
      waits := waits + 1;
      disconnected := false;
      if !token {
        disconnected := *;
        connected := !disconnected;
      }
      token := false;
    }

    /** As `Receive`, but the wait may also time out. */
    method ReceiveTimeout() returns (disconnected: bool, timedOut: bool)
      modifies this
      ensures !token && (old(token) ==> !disconnected && !timedOut) && waits == old(waits) + 1
    {
      timedOut := false;
      if !token {
        timedOut := *;
      }
      if timedOut {
        waits := waits + 1;
        disconnected := false;
      } else {
        disconnected := Receive();
      }
    }
  }
}
