/** The status projection shared with the controller (`src/runtime/status.rs`). */
module Status {
  import opened Types

  datatype FailureMessage = LifecycleInvariantFailed | HandshakeFailed | KeyStoreFailed | TransportFailed | LoopFailed

  datatype Projection = Projection(
    lifecycle: LifecycleState,
    connected: bool,
    sessionId: Option<U64>,
    reportMode: Option<Byte>,
    inputs: U64,
    replies: U64,
    lastSubcommand: Option<Byte>,
    lastDisconnectReason: Option<Byte>,
    failure: Option<FailureMessage>,
    snapshot: InputState)

  const CONFIGURED: Projection :=
    Projection(LifecycleState.Configured, false, None, None, 0, 0, None, None, None, NEUTRAL)

  function BeginSession(p: Projection, id: U64, lifecycle: LifecycleState, snapshot: InputState): Projection {
    p.(lifecycle := lifecycle, connected := false, sessionId := Some(id), reportMode := None,
       lastSubcommand := None, lastDisconnectReason := None, failure := None, snapshot := snapshot)
  }

  function EndSession(p: Projection, lifecycle: LifecycleState, reason: Option<Byte>): Projection {
    p.(lifecycle := lifecycle, connected := false, sessionId := None, reportMode := None,
       lastDisconnectReason := reason)
  }

  function Close(p: Projection): Projection {
    p.(lifecycle := LifecycleState.Closed, connected := false, sessionId := None, reportMode := None)
  }

  /** Only the first failure of a session is kept. */
  function Fail(p: Projection, message: FailureMessage): Projection {
    if p.failure.Some? then p
    else p.(lifecycle := LifecycleState.Failed, connected := false, sessionId := None, reportMode := None,
            failure := Some(message))
  }

  class StatusPublisher {
    var state: Projection

    constructor ()
      ensures state == CONFIGURED
    {
      state := CONFIGURED;
    }

    method SetLifecycle(lifecycle: LifecycleState)
      modifies this
      ensures state == old(state).(lifecycle := lifecycle)
    {
      if state.lifecycle == lifecycle {
        return;
      }
      state := state.(lifecycle := lifecycle);
    }

    method PublishSession(id: U64, lifecycle: LifecycleState, snapshot: InputState)
      modifies this
      ensures state == BeginSession(old(state), id, lifecycle, snapshot)
    {
      state := state.(lifecycle := lifecycle, connected := false);
      state := state.(sessionId := Some(id), reportMode := None);
      state := state.(lastSubcommand := None, lastDisconnectReason := None, failure := None);
      state := state.(snapshot := snapshot);
    }

    method SetConnected(connected: bool)
      modifies this
      ensures state == old(state).(connected := connected)
    {
      state := state.(connected := connected);
    }

    method SetSnapshot(snapshot: InputState)
      modifies this
      ensures state == old(state).(snapshot := snapshot)
    {
      state := state.(snapshot := snapshot);
    }

    /** The precondition is the expectation that an acceptance event has an active session context. */
    method SetSenderState(reportMode: Option<Byte>, inputs: U64, replies: U64)
      requires state.inputs < inputs || state.replies < replies ==> state.sessionId.Some?
      modifies this
      ensures state == old(state).(reportMode := reportMode, inputs := inputs, replies := replies)
    {
      state := state.(reportMode := reportMode, inputs := inputs, replies := replies);
    }

    method RecordSubcommand(id: Byte)
      modifies this
      ensures state == old(state).(lastSubcommand := Some(id))
    {
      state := state.(lastSubcommand := Some(id));
    }

    method PublishEnd(lifecycle: LifecycleState, reason: Option<Byte>)
      modifies this
      ensures state == EndSession(old(state), lifecycle, reason)
    {
      state := state.(lifecycle := lifecycle, connected := false);
      state := state.(sessionId := None, reportMode := None, lastDisconnectReason := reason);
    }

    method PublishClose()
      modifies this
      ensures state == Close(old(state))
    {
      state := state.(lifecycle := LifecycleState.Closed, connected := false);
      state := state.(sessionId := None, reportMode := None);
    }

    method PublishFailure(message: FailureMessage)
      modifies this
      ensures state == Fail(old(state), message)
    {
      if state.failure.Some? {
        return;
      }
      state := state.(lifecycle := LifecycleState.Failed, connected := false);
      state := state.(sessionId := None, reportMode := None, failure := Some(message));
    }
  }
}
