/** Timed taps in both reporting modes: press now, release later
    (`src/runtime/periodic.rs`, `src/runtime/direct.rs`). */
module Taps {
  import opened Types
  import opened Clock
  import opened Input
  import opened PeriodicPolicies
  import opened Sender
  import opened State
  import opened Transport

  /** A pressed tap waiting for its release. Only a Periodic tap can carry a rejected press. */
  datatype PendingTap = PendingTap(released: InputState, releaseAt: Duration, firstError: CallResult)

  datatype TapInterruption = TapDisconnected(reason: Option<Byte>) | TapShutdown

  datatype DirectError = DirectNotReady | DirectTransport(kind: TransportErrorKind) | Interrupted(interruption: TapInterruption)

  /** Periodic: the state is committed first and stays committed whatever the send does. */
  function CommitAndSend(o: Outbound, candidate: InputState, nowNs: U64, outcome: SendOutcome): Outbound {
    SendInput(o.(status := o.status.(snapshot := candidate)), candidate, nowNs, outcome)
  }

  /** Direct: the state is committed only when its report is accepted. */
  function SendThenCommit(o: Outbound, input: InputState, candidate: InputState, nowNs: U64, outcome: SendOutcome)
    : (Outbound, InputState)
  {
    var sent := SendInput(o, candidate, nowNs, outcome);
    if outcome.Accepted? then (sent.(status := sent.status.(snapshot := candidate)), candidate) else (sent, input)
  }

  /** A rejected press leaves the tap pending; any other failed press ends it. */
  function PeriodicPress(plan: TapPlan, now: Duration, outcome: SendOutcome): Result<PendingTap, PeriodicError> {
    if outcome.Refused? && outcome.kind != SendRejected then Err(PeriodicTransport(outcome.kind, None))
    else
      Ok(PendingTap(plan.released, DeadlineAfter(now, plan.duration),
                    if outcome.Refused? then Some(outcome.kind) else None))
  }

  /** The tap reports its first error, and hands a later terminal one to the worker. */
  function PeriodicRelease(tap: PendingTap, outcome: SendOutcome): Result<(), PeriodicError> {
    match (tap.firstError, outcome)
    case (None, Accepted) => Ok(())
    case (Some(first), Accepted) => Err(PeriodicTransport(first, None))
    case (None, Refused(kind)) => Err(PeriodicTransport(kind, None))
    case (Some(first), Refused(kind)) =>
      Err(PeriodicTransport(first, if kind != SendRejected then Some(kind) else None))
  }

  method CommitAndSendCandidate(candidate: InputState, nowNs: U64, store: InputStateStore, sender: ReportSender,
                                port: TransportPort) returns (outcome: SendOutcome)
    requires store.status == sender.status && sender.status.state.sessionId.Some?
    modifies store, sender, sender.status, port
    ensures store.committed == candidate
    ensures sender.Out(port) == CommitAndSend(old(sender.Out(port)), candidate, nowNs, outcome)
  {
    store.Commit(candidate);
    outcome := sender.SendInputReport(store.Snapshot(), nowNs, port);
  }

  method BeginPeriodicTap(ready: bool, plan: TapPlan, now: Duration, store: InputStateStore, sender: ReportSender,
                          port: TransportPort)
    returns (r: Result<PendingTap, PeriodicError>, ghost outcome: SendOutcome)
    requires store.status == sender.status && (ready ==> sender.status.state.sessionId.Some?)
    modifies store, sender, sender.status, port
    ensures !ready ==> r == Err(PeriodicNotReady)
    ensures !ready ==> sender.Out(port) == old(sender.Out(port)) && store.committed == old(store.committed)
    ensures ready ==> r == PeriodicPress(plan, now, outcome) && store.committed == plan.pressed
    ensures ready ==> sender.Out(port)
                      == CommitAndSend(old(sender.Out(port)), plan.pressed, ProtocolTimestamp(now), outcome)
  {
    outcome := Accepted;
    if !ready {
      return Err(PeriodicNotReady), outcome;
    }
    var sent := CommitAndSendCandidate(plan.pressed, ProtocolTimestamp(now), store, sender, port);
    outcome := sent;
    if sent.Refused? && sent.kind != SendRejected {
      return Err(PeriodicTransport(sent.kind, None)), outcome;
    }
    var firstError := if sent.Refused? then Some(sent.kind) else None;
    r := Ok(PendingTap(plan.released, DeadlineAfter(now, plan.duration), firstError));
  }

  method FinishPeriodicTap(tap: PendingTap, now: Duration, store: InputStateStore, sender: ReportSender,
                           port: TransportPort)
    returns (r: Result<(), PeriodicError>, ghost outcome: SendOutcome)
    requires store.status == sender.status && sender.status.state.sessionId.Some?
    modifies store, sender, sender.status, port
    ensures store.committed == tap.released && r == PeriodicRelease(tap, outcome)
    ensures sender.Out(port) == CommitAndSend(old(sender.Out(port)), tap.released, ProtocolTimestamp(now), outcome)
  {
    var sent := CommitAndSendCandidate(tap.released, ProtocolTimestamp(now), store, sender, port);
    outcome := sent;
    if tap.firstError.None? && sent.Accepted? {
      r := Ok(());
    } else if sent.Accepted? {
      r := Err(PeriodicTransport(tap.firstError.value, None));
    } else if tap.firstError.None? {
      r := Err(PeriodicTransport(sent.kind, None));
    } else {
      var laterTerminal := if sent.kind != SendRejected then Some(sent.kind) else None;
      r := Err(PeriodicTransport(tap.firstError.value, laterTerminal));
    }
  }

  method SendDirect(candidate: InputState, nowNs: U64, store: InputStateStore, sender: ReportSender, port: TransportPort)
    returns (outcome: SendOutcome)
    requires store.status == sender.status && sender.status.state.sessionId.Some?
    modifies store, sender, sender.status, port
    ensures (sender.Out(port), store.committed)
         == SendThenCommit(old(sender.Out(port)), old(store.committed), candidate, nowNs, outcome)
  {
    outcome := sender.SendInputReport(candidate, nowNs, port);
    if outcome.Refused? {
      return;
    }
    store.Commit(candidate);
  }

  method BeginDirectTap(plan: TapPlan, startedAt: Duration, store: InputStateStore, sender: ReportSender,
                        port: TransportPort)
    returns (r: Result<PendingTap, DirectError>, ghost outcome: SendOutcome)
    requires store.status == sender.status && sender.status.state.sessionId.Some?
    modifies store, sender, sender.status, port
    ensures r == if outcome.Accepted? then Ok(PendingTap(plan.released, DeadlineAfter(startedAt, plan.duration), None))
                 else Err(DirectTransport(outcome.kind))
    ensures (sender.Out(port), store.committed)
         == SendThenCommit(old(sender.Out(port)), old(store.committed), plan.pressed, ProtocolTimestamp(startedAt), outcome)
  {
    var releaseAt := DeadlineAfter(startedAt, plan.duration);
    var sent := SendDirect(plan.pressed, ProtocolTimestamp(startedAt), store, sender, port);
    outcome := sent;
    if sent.Refused? {
      return Err(DirectTransport(sent.kind)), outcome;
    }
    r := Ok(PendingTap(plan.released, releaseAt, None));
  }
}
