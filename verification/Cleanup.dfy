/** Ordered shutdown effects with the first failure kept (`src/runtime/cleanup.rs`). */
module Cleanup {
  import opened Types
  import opened Lifecycle
  import opened Sender
  import opened Status
  import opened Transport

  datatype CloseMode = WithNeutral | WithoutNeutral

  datatype CleanupPhase = NeutralPhase | DrainPhase | DisconnectPhase | ClosePhase

  datatype CleanupFailure = CleanupFailure(phase: CleanupPhase, kind: TransportErrorKind)

  datatype CleanupPlan = CleanupPlan(mode: CloseMode, drainTimeout: Duration, drainInterrupt: bool)

  datatype CloseCompletion = CloseCompletion(performed: bool, firstFailure: Option<CleanupFailure>)

  /** What the transport answered to the effects of one cleanup. */
  datatype CleanupAnswers =
    CleanupAnswers(neutral: SendOutcome, drain: CallResult, disconnect: CallResult, close: CallResult)

  datatype ExplicitCloseError<J> =
    | OnlyCleanup(cleanup: CleanupFailure)
    | OnlyJoin(join: J)
    | CleanupAndJoin(cleanup: CleanupFailure, join: J)

  const EXPLICIT_CLOSE_DRAIN_TIMEOUT: Duration := 1_000_000_000
  const DROP_PLAN: CleanupPlan := CleanupPlan(WithoutNeutral, 0, false)

  function ClosePlan(mode: CloseMode): CleanupPlan {
    CleanupPlan(mode, EXPLICIT_CLOSE_DRAIN_TIMEOUT, true)
  }

  function KeepFirst(first: Option<CleanupFailure>, phase: CleanupPhase, error: CallResult): Option<CleanupFailure> {
    if first.Some? || error.None? then first else Some(CleanupFailure(phase, error.value))
  }

  predicate SendsNeutral(plan: CleanupPlan, connected: bool) {
    plan.mode.WithNeutral? && connected
  }

  /** The failure of the earliest phase that ran and failed. */
  function EarliestFailure(plan: CleanupPlan, connected: bool, a: CleanupAnswers): Option<CleanupFailure> {
    if SendsNeutral(plan, connected) && a.neutral.Refused? then Some(CleanupFailure(NeutralPhase, a.neutral.kind))
    else if plan.drainInterrupt && a.drain.Some? then Some(CleanupFailure(DrainPhase, a.drain.value))
    else if a.disconnect.Some? then Some(CleanupFailure(DisconnectPhase, a.disconnect.value))
    else if a.close.Some? then Some(CleanupFailure(ClosePhase, a.close.value))
    else None
  }

  /** The transport calls after the neutral report: whatever fails, every later one still happens. */
  function ClosingCalls(plan: CleanupPlan, a: CleanupAnswers): seq<PortCall> {
    (if plan.drainInterrupt then [Drained(plan.drainTimeout, a.drain)] else [])
    + [DisconnectCalled(a.disconnect), PortClosed(a.close)]
  }

  function WithLifecycle(o: Outbound, lifecycle: LifecycleState): Outbound {
    o.(status := o.status.(lifecycle := lifecycle))
  }

  function RunCleanup(plan: CleanupPlan, o: Outbound, connected: bool, nowNs: U64, publish: bool, a: CleanupAnswers)
    : Outbound
  {
    var closing := if publish then WithLifecycle(o, LifecycleState.Closing) else o;
    var neutral := if SendsNeutral(plan, connected) then SendInput(closing, NEUTRAL, nowNs, a.neutral) else closing;
    var closed := neutral.(wire := neutral.wire + ClosingCalls(plan, a));
    if publish then closed.(status := Close(closed.status)) else closed
  }

  method Run(plan: CleanupPlan, connected: bool, nowNs: U64, lifecycle: LifecycleStateMachine, sender: ReportSender,
             publish: bool, port: TransportPort)
    returns (completion: CloseCompletion, ghost answers: CleanupAnswers)
    requires SendsNeutral(plan, connected) ==> sender.status.state.sessionId.Some?
    modifies lifecycle, sender, sender.status, port
    ensures lifecycle.state.Closing?
    ensures completion == if old(lifecycle.state).Closing? then CloseCompletion(false, None)
                          else CloseCompletion(true, EarliestFailure(plan, connected, answers))
    ensures sender.Out(port) == if old(lifecycle.state).Closing? then old(sender.Out(port))
                                else RunCleanup(plan, old(sender.Out(port)), connected, nowNs, publish, answers)
  {
    answers := CleanupAnswers(Accepted, None, None, None);
    var action := lifecycle.RequestClose();
    if action != BeginCleanup {
      return CloseCompletion(false, None), answers;
    }
    if publish {
      sender.status.SetLifecycle(lifecycle.state);
    }
    ghost var closing := sender.Out(port);
    var firstFailure: Option<CleanupFailure> := None;
    if SendsNeutral(plan, connected) {
      var sent := sender.SendInputReport(NEUTRAL, nowNs, port);
      answers := answers.(neutral := sent);
      firstFailure := KeepFirst(firstFailure, NeutralPhase, if sent.Refused? then Some(sent.kind) else None);
    }
    ghost var neutral := sender.Out(port);
    if plan.drainInterrupt {
      var drained := port.DrainInterrupt(plan.drainTimeout);
      answers := answers.(drain := drained);
      firstFailure := KeepFirst(firstFailure, DrainPhase, drained);
    }
    var disconnected := port.Disconnect();
    answers := answers.(disconnect := disconnected);
    firstFailure := KeepFirst(firstFailure, DisconnectPhase, disconnected);
    var closed := port.Close();
    answers := answers.(close := closed);
    firstFailure := KeepFirst(firstFailure, ClosePhase, closed);
    assert port.trace == neutral.wire + ClosingCalls(plan, answers);
    var completed := lifecycle.CompleteClose();
    assert completed == CloseComplete;
    if publish {
      sender.status.PublishClose();
    }
    completion := CloseCompletion(true, firstFailure);
  }

  /** A close that did nothing reports success without joining; otherwise neither failure hides the other. */
  function FinishWithJoin<J>(c: CloseCompletion, join: Result<(), J>): (r: Result<(), ExplicitCloseError<J>>)
    ensures !c.performed ==> r.Ok?
    ensures c.performed ==> (r.Ok? <==> c.firstFailure.None? && join.Ok?)
    ensures r.Err? && c.firstFailure.Some? ==> !r.error.OnlyJoin? && r.error.cleanup == c.firstFailure.value
    ensures r.Err? && join.Err? ==> !r.error.OnlyCleanup? && r.error.join == join.error
  {
    if !c.performed then Ok(())
    else
      match (c.firstFailure, join)
      case (None, Ok(_)) => Ok(())
      case (None, Err(j)) => Err(OnlyJoin(j))
      case (Some(f), Ok(_)) => Err(OnlyCleanup(f))
      case (Some(f), Err(j)) => Err(CleanupAndJoin(f, j))
  }
}
