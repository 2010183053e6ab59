/** The invariant of a live worker, and its preservation by every action. */
module Invariant {
  import opened Types
  import opened Clock
  import opened Command
  import opened Handshakes
  import opened Machine
  import opened Output
  import opened Readiness
  import opened Sender
  import opened Session
  import opened Transport

  /** Lifecycle, session, connection attempt and pending commands agree. */
  predicate LifecycleAgrees(c: Core) {
    && (c.lifecycle.Open? || c.lifecycle.Connecting? || c.lifecycle.Ready?)
    && (c.lifecycle.Connecting? <==> c.connection.Some?)
    && (c.lifecycle.Connecting? <==> c.pending.Some?)
    && (c.lifecycle.Open? <==> c.sessions.current.None?)
    && (c.sessions.current.Some? ==> c.sessions.current.value == c.sessions.lastIssued)
    && (c.tap.Some? ==> c.lifecycle.Ready?)
    && (c.connected ==> c.sessions.current.Some?)
    && (c.lifecycle.Ready? ==> c.connected)
  }

  predicate ShakeAgrees(h: Shake, id: U64, mode: Mode, connected: bool) {
    && h.sessionId == id
    && h.condition == Condition(mode)
    && (h.link ==> connected)
    && (h.retry.Some? ==> h.retry.value.period == BOOTSTRAP_RETRY && h.TopologyReady())
    && (h.accepted ==> h.TopologyReady())
    && (h.stopped ==> h.accepted && h.retry.None?)
  }

  /** The attempt, its gate and its handshake belong to the current session; a collected handshake is gone. */
  predicate AttemptAgrees(c: Core) {
    c.connection.Some? ==>
      var a := c.connection.value;
      && a.sessionId == c.sessions.lastIssued == a.gate.sessionId
      && (a.handshake.Some? ==> ShakeAgrees(a.handshake.value, a.sessionId, c.mode, c.connected))
      && (a.handshake.None? <==> a.gate.completion.Some?)
      && (a.gate.completion.Some? ==> a.gate.completion.value == a.sessionId && c.connected)
  }

  /** Every published field equals the worker's own. */
  predicate Mirrors(c: Core) {
    var s := c.out.status;
    && s.lifecycle == c.lifecycle
    && s.connected == c.connected
    && s.sessionId == c.sessions.current
    && s.reportMode == (if c.sessions.current.Some? then c.out.sender.session.reportMode else None)
    && s.inputs == c.out.sender.inputs
    && s.replies == c.out.sender.replies
    && s.snapshot == c.input
    && s.lastSubcommand == c.observed.last
    && s.failure.None?
  }

  predicate PolicyAgrees(c: Core) {
    && (c.mode.Direct? || c.lifecycle.Open? ==> c.policy.schedule.None? && c.policy.holdoff.None?)
    && (c.policy.schedule.Some? ==> c.policy.schedule.value.period == c.policy.period)
    && (c.mode.Periodic? && c.lifecycle.Ready? ==> c.policy.schedule.Some?)
    && (c.tap.Some? && c.tap.value.firstError.Some? ==> c.tap.value.firstError.value == SendRejected)
    && (c.mode.Direct? && c.lifecycle.Connecting? ==> c.input == NEUTRAL)
  }

  predicate Live(c: Core) {
    LifecycleAgrees(c) && AttemptAgrees(c) && Mirrors(c) && PolicyAgrees(c)
  }

  lemma NewCoreIsLive(mode: Mode, period: Period)
    ensures Live(NewCore(mode, period))
  {
  }

  lemma ConnectPreservesLive(c: Core, p: Progress, kind: ConnectionCommandKind, timeout: Duration, error: CallResult,
                             now: Duration)
    requires Live(c) && !c.HasPending()
    ensures Live(ConnectCommand(c, p, kind, timeout, error, now).core)
  {
  }

  /** A send attempt within a session keeps the projection equal to the sender. */
  lemma SendKeepsMirror(c: Core, state: InputState, nowNs: U64, outcome: SendOutcome)
    requires Mirrors(c) && c.sessions.current.Some?
    ensures Mirrors(c.(out := SendInput(c.out, state, nowNs, outcome)))
  {
  }

  lemma PeriodicInputPreservesLive(c: Core, command: InputCommand, now: Duration, outcome: SendOutcome)
    requires Live(c) && c.mode.Periodic?
    ensures Live(PeriodicInput(c, command, now, outcome).0)
  {
  }

  lemma DirectInputPreservesLive(c: Core, command: InputCommand, now: Duration, outcome: SendOutcome)
    requires Live(c)
    ensures Live(DirectInput(c, command, now, outcome).0)
  {
  }

  lemma InputPreservesLive(c: Core, p: Progress, command: InputCommand, now: Duration, outcome: SendOutcome)
    requires Live(c)
    ensures Live(InputStep(c, p, command, now, outcome).core)
  {
    if c.mode.Periodic? {
      PeriodicInputPreservesLive(c, command, now, outcome);
    } else {
      DirectInputPreservesLive(c, command, now, outcome);
    }
  }

  lemma LosingPreservesLive(c: Core, p: Progress, error: ReadinessError, reason: Option<Byte>)
    requires Live(c) && c.connection.Some?
    ensures Live(LoseConnection(c, p, error, reason).0)
  {
  }

  lemma HandlingPreservesLive(c: Core, raw: seq<Byte>, outcome: SendOutcome)
    requires Live(c) && c.sessions.current.Some?
    ensures Live(ReplyToOutput(c, raw, outcome).0)
  {
  }

  lemma OutputPreservesLive(c: Core, p: Progress, raw: seq<Byte>, now: Duration, outcome: SendOutcome)
    requires Live(c) && c.sessions.current.Some?
    ensures Live(OutputEvent(c, p, raw, now, outcome).core)
  {
    HandlingPreservesLive(c, raw, outcome);
    var (c', completion) := ReplyToOutput(c, raw, outcome);
    RecordingPreservesLive(c', p, completion, now);
  }

  lemma RecordingPreservesLive(c: Core, p: Progress, completion: OutputCompletion, now: Duration)
    requires Live(c) && c.sessions.current.Some?
    ensures Live(RecordOutput(c, p, completion, now).core)
  {
  }

  lemma DisconnectPreservesLive(c: Core, p: Progress, reason: Option<Byte>)
    requires Live(c)
    ensures Live(DisconnectEvent(c, p, reason).0)
  {
    if c.connection.Some? {
      LosingPreservesLive(c.(tap := None), p, ConnectionLost(reason), reason);
    }
  }

  lemma EventPreservesLive(c: Core, p: Progress, event: SessionEvent, now: Duration, outcome: SendOutcome)
    requires Live(c)
    ensures Live(HandleEvent(c, p, event, now, outcome).core)
  {
    if IsCurrent(c, event) {
      match event.event
      case HidOutput(raw) => OutputPreservesLive(c, p, raw, now, outcome);
      case LinkDisconnected(reason) => DisconnectPreservesLive(c, p, reason);
      case _ =>
    }
  }

  /** One handshake step of a live attempt, before any completion is collected. */
  lemma ShakePreservesAgreement(h: Shake, o: Outbound, id: U64, mode: Mode, now: Duration, observedAny: bool,
                                outcome: SendOutcome)
    requires ShakeAgrees(h, id, mode, true)
    ensures ShakeAgrees(StepShake(h, o, id, now, observedAny, outcome).0, id, mode, true)
  {
  }

  lemma ShakeSendsOrNot(h: Shake, o: Outbound, id: U64, now: Duration, observedAny: bool, outcome: SendOutcome)
    ensures var (h', o', r) := StepShake(h, o, id, now, observedAny, outcome);
            if r.Ok? && r.value.BootstrapAttempted?
            then o' == SendInput(o, NEUTRAL, ProtocolTimestamp(now), outcome) && h.TopologyReady()
            else o' == o
  {
  }

  lemma DriveHandshakePreservesLive(c: Core, p: Progress, now: Duration, outcome: SendOutcome)
    requires Live(c) && c.connection.Some?
    ensures Live(DriveHandshake(c, p, now, outcome).core)
    ensures DriveHandshake(c, p, now, outcome).core.connection.Some?
  {
    var a := c.connection.value;
    if a.handshake.Some? {
      var observedAny := c.observed.ids != iset{};
      ShakeSendsOrNot(a.handshake.value, c.out, a.sessionId, now, observedAny, outcome);
      SendKeepsMirror(c, NEUTRAL, ProtocolTimestamp(now), outcome);
      if c.connected {
        ShakePreservesAgreement(a.handshake.value, c.out, a.sessionId, c.mode, now, observedAny, outcome);
      }
    }
  }

  /** What an evaluation leaves: a live worker, or one that is live once it becomes ready. */
  predicate EvaluatedLive(c: Core, evaluated: (Core, Result<ReadinessProgress, ReadinessError>)) {
    var (c', r) := evaluated;
    if r.Ok? && r.value.ReadyFor? then
      r.value.sessionId == c.sessions.lastIssued && Live(BecomeReady(c').(pending := None))
    else Live(c')
  }

  lemma PeriodicEvaluationPreservesLive(c: Core, now: Duration)
    requires Live(c) && c.connection.Some? && c.mode.Periodic?
    ensures EvaluatedLive(c, EvaluateForPeriodic(c, now))
  {
  }

  lemma DirectEvaluationPreservesLive(c: Core, now: Duration)
    requires Live(c) && c.connection.Some? && c.mode.Direct?
    ensures EvaluatedLive(c, EvaluateForDirect(c, now))
  {
  }

  /** Evaluating readiness moves a completed handshake into the gate and may start the schedule. */
  lemma EvaluationPreservesLive(c: Core, now: Duration)
    requires Live(c) && c.connection.Some?
    ensures EvaluatedLive(c, EvaluateReadiness(c, now))
  {
    hide Live, EvaluatedLive, EvaluateForPeriodic, EvaluateForDirect;
    if c.mode.Periodic? {
      PeriodicEvaluationPreservesLive(c, now);
    } else {
      DirectEvaluationPreservesLive(c, now);
    }
  }

  lemma SettlingPreservesLive(c: Core, p: Progress, now: Duration)
    requires Live(c) && c.connection.Some?
    ensures Live(SettleReadiness(c, p, now).core) && SettleReadiness(c, p, now).fault.None?
  {
    EvaluationPreservesLive(c, now);
    var (c', r) := EvaluateReadiness(c, now);
    if r.Err? {
      LosingPreservesLive(c', p, r.error, None);
    }
  }

  lemma DrivePreservesLive(c: Core, p: Progress, now: Duration, outcome: SendOutcome)
    requires Live(c)
    ensures Live(Drive(c, p, now, outcome).core)
  {
    if c.connection.Some? {
      match InactiveError(c.connection.value.gate, now, c.sessions)
      case Some(error) => LosingPreservesLive(c, p, error, None);
      case None =>
        DriveHandshakePreservesLive(c, p, now, outcome);
        var o := DriveHandshake(c, p, now, outcome);
        if o.fault.None? {
          SettlingPreservesLive(o.core, o.progress, now);
        }
    }
  }

  lemma FinishTapPreservesLive(c: Core, p: Progress, now: Duration, outcome: SendOutcome)
    requires Live(c) && c.tap.Some?
    ensures Live(FinishTap(c, p, now, outcome).core)
  {
  }

  lemma AutomaticSendPreservesLive(c: Core, now: Duration, capacity: bool, outcome: SendOutcome)
    requires Live(c) && c.mode.Periodic? && c.sessions.current.Some?
    ensures Live(SendAutomatic(c, now, capacity, outcome).0)
  {
  }

  lemma DuePreservesLive(c: Core, p: Progress, now: Duration, capacity: bool, outcome: SendOutcome)
    requires Live(c) && DueAllowed(c)
    ensures Live(RunDue(c, p, now, capacity, outcome).core)
  {
    if TapDue(c, now) {
      FinishTapPreservesLive(c, p, now, outcome);
    } else if c.mode.Periodic? {
      AutomaticSendPreservesLive(c, now, capacity, outcome);
    }
  }
}
