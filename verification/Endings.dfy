/** How runs end: which transport errors end them, and the one cleanup that does. */
module Endings {
  import opened Types
  import opened Cleanup
  import opened Command
  import opened Effects
  import opened Invariant
  import opened Machine
  import opened PeriodicPolicies
  import opened Runs
  import opened Sender
  import opened Transport
  import opened Wire
  import opened WorldInvariant

  // ---- Terminal transport errors ----

  /** The error by which a transport call must end the run: any failed send but a rejection, and any failed poll. */
  function Terminal(call: PortCall): Option<TransportErrorKind> {
    match call
    case Sent(_, Refused(kind)) => if kind != SendRejected then Some(kind) else None
    case Polled(Err(kind)) => Some(kind)
    case _ => None
  }

  ghost predicate Clean(wire: seq<PortCall>) {
    forall k :: 0 <= k < |wire| ==> Terminal(wire[k]).None?
  }

  /** A stopping worker has just seen its only terminal error, or its next bootstrap point did not fit. */
  ghost predicate StoppedBy(w: World) {
    var wire := w.core.out.wire;
    match w.fault
    case Some(TransportFailed(kind)) =>
      wire != [] && Clean(wire[..|wire| - 1]) && Terminal(wire[|wire| - 1]) == Some(kind)
    case Some(HandshakeFailed(_)) => Clean(wire) && OverflowFails(Outcome(w.core, w.progress, w.fault), w.time)
    case _ => false
  }

  ghost predicate Disposed(w: World) {
    if w.phase.Stopping? then StoppedBy(w) else Clean(w.core.out.wire)
  }

  lemma EffectDisposes(w: World, w': World, e: Effect)
    requires HasEffect(w, w', e) && Clean(w.core.out.wire)
    ensures Disposed(w')
  {
  }

  lemma StepDisposes(w: World, a: Action)
    requires WorldInv(w) && Enabled(w, a) && !Ending(a) && Disposed(w)
    ensures Disposed(Perform(w, a))
  {
    StoppingOnlyEnds(w, a);
    if a.Connect? {
      ConnectDisposes(w, a);
    } else {
      hide WorldInv, Enabled, Perform;
      var e := ActionHasEffect(w, a);
      EffectDisposes(w, Perform(w, a), e);
    }
  }

  lemma StoppingOnlyEnds(w: World, a: Action)
    requires Enabled(w, a)
    ensures w.phase.Stopping? ==> Ending(a)
  {
  }

  lemma ConnectDisposes(w: World, a: Action)
    requires Enabled(w, a) && a.Connect? && Disposed(w)
    ensures Disposed(Perform(w, a))
  {
    hide ConnectCommand;
    ConnectEffect(w.core, w.progress, a.kind, a.timeout, a.error, a.now);
  }

  /** In every run of a new worker: as long as no terminal transport error has happened the worker goes on, unless its
      bootstrap schedule overflowed; and at the first one, on whatever path, it stops with that very error. */
  lemma {:induction false} TerminalErrorsStopTheWorker(r: Run, i: nat)
    requires FreshRun(r) && i < |r.worlds| && Alive(r.worlds[i].phase)
    ensures Disposed(r.worlds[i])
  {
    hide Disposed, WorldInv, Enabled, Perform;
    if i == 0 {
      NewWorldIsClean(r);
    } else {
      var w, a := r.worlds[i - 1], r.actions[i - 1];
      assert Leads(w, a, r.worlds[i]);
      FreshRunKeepsWorldInv(r, i - 1);
      DeadStaysDead(w, a);
      TerminalErrorsStopTheWorker(r, i - 1);
      StepDisposes(w, a);
    }
  }

  lemma NewWorldIsClean(r: Run)
    requires FreshRun(r)
    ensures Disposed(r.worlds[0])
  {
  }

  /** A Periodic tap whose press was rejected reports that first error even when its release meets a terminal one, and the
      worker stops with the later error. */
  lemma FirstErrorIsKeptForTheCaller(c: Core, p: Progress, first: TransportErrorKind, now: Duration, outcome: SendOutcome)
    requires c.mode.Periodic? && c.tap.Some? && c.tap.value.firstError == Some(first)
    ensures var o := FinishTap(c, p, now, outcome);
            && o.progress.result == Some(Err(PeriodicRejected(PeriodicTransport(first, None))))
            && (outcome.Refused? && outcome.kind != SendRejected ==> o.fault == Some(TransportFailed(outcome.kind)))
  {
  }

  // ---- One cleanup ----

  predicate IsClosing(call: PortCall) {
    call.Drained? || call.DisconnectCalled? || call.PortClosed?
  }

  ghost predicate Unclosed(wire: seq<PortCall>) {
    forall k :: 0 <= k < |wire| ==> !IsClosing(wire[k])
  }

  /** The trace ends with disconnect and close, after at most one drain; none of the three happened before, and no
      report follows the drain. */
  ghost predicate ClosedOnce(wire: seq<PortCall>) {
    exists before, drain, disconnect, close ::
      && Unclosed(before) && (drain == [] || exists timeout, error :: drain == [Drained(timeout, error)])
      && wire == before + drain + [DisconnectCalled(disconnect), PortClosed(close)]
  }

  ghost predicate EndsClosed(w: World) {
    if w.phase.ClosedDown? || w.phase.CleanedUp? then ClosedOnce(w.core.out.wire)
    else Unclosed(w.core.out.wire) && !w.core.lifecycle.Closing?
  }

  /** What cleanup adds to the trace of a worker that is not already closing. */
  lemma CleanupCloses(c: Core, plan: CleanupPlan, now: Duration, publish: bool, answers: CleanupAnswers)
    requires Unclosed(c.out.wire) && !c.lifecycle.Closing?
    ensures ClosedOnce(CleanUp(c, plan, now, publish, answers).out.wire)
  {
    var neutral := NeutralCalls(c, plan, now, publish, answers);
    var before := c.out.wire + neutral;
    var drain := if plan.drainInterrupt then [Drained(plan.drainTimeout, answers.drain)] else [];
    assert CleanUp(c, plan, now, publish, answers).out.wire
        == before + drain + [DisconnectCalled(answers.disconnect), PortClosed(answers.close)];
  }

  /** The neutral report of a close, if it is asked for and there is a connection to send it on. */
  function NeutralCalls(c: Core, plan: CleanupPlan, now: Duration, publish: bool, answers: CleanupAnswers): seq<PortCall> {
    if SendsNeutral(plan, c.connected) then
      var closing := if publish then WithLifecycle(c.out, LifecycleState.Closing) else c.out;
      [Sent(InputEffect(closing, NEUTRAL, Clock.ProtocolTimestamp(now), answers.neutral).report, answers.neutral)]
    else []
  }

  lemma ClosingCloses(c: Core, p: Progress, request: ShutdownRequest, now: Duration, answers: CleanupAnswers)
    requires Unclosed(c.out.wire) && !c.lifecycle.Closing?
    ensures ClosedOnce(CloseWorker(c, p, request, now, answers).0.out.wire)
  {
    hide CleanUp;
    var (c', _) := CompleteConnection(c, p, Err(ShutdownInterrupted));
    CleanupCloses(StopReporting(c'), ShutdownPlan(request), now, true, answers);
  }

  /** A drop only disconnects and closes; an explicit close drains for one second first, and sends a neutral report
      before that only if it was asked to and a connection is there. */
  predicate ClosesAs(c: Core, request: ShutdownRequest, now: Duration, answers: CleanupAnswers, wire: seq<PortCall>) {
    var finally := [DisconnectCalled(answers.disconnect), PortClosed(answers.close)];
    match request
    case DroppedShutdown => wire == c.out.wire + finally
    case ExplicitShutdown(mode) =>
      if mode.WithNeutral? && c.connected then
        wire == c.out.wire + [Sent(InputReportOf(c.out.sender, NEUTRAL, now), answers.neutral),
                              Drained(1_000_000_000, answers.drain)] + finally
      else wire == c.out.wire + [Drained(1_000_000_000, answers.drain)] + finally
  }

  lemma CloseRequestsDiffer(c: Core, p: Progress, request: ShutdownRequest, now: Duration, answers: CleanupAnswers)
    requires !c.lifecycle.Closing?
    ensures ClosesAs(c, request, now, answers, CloseWorker(c, p, request, now, answers).0.out.wire)
  {
    var wire := CloseWorker(c, p, request, now, answers).0.out.wire;
    var neutral := NeutralCalls(c, ShutdownPlan(request), now, true, answers);
    assert wire == c.out.wire + neutral + ClosingCalls(ShutdownPlan(request), answers);
  }

  lemma ShutdownClosesAs(w: World, a: Action)
    requires WorldInv(w) && Enabled(w, a) && a.Shutdown?
    ensures ClosesAs(w.core, a.request, a.now, a.answers, Perform(w, a).core.out.wire)
  {
    hide CloseWorker, ClosesAs, Live;
    LiveIsNotClosing(w.core);
    CloseRequestsDiffer(w.core, w.progress, a.request, a.now, a.answers);
  }

  lemma CleaningUpCloses(c: Core, now: Duration, answers: CleanupAnswers)
    requires Unclosed(c.out.wire) && !c.lifecycle.Closing?
    ensures ClosedOnce(CleanUpAfterFailure(c, now, answers).out.wire)
  {
    hide CleanUp;
    CleanupCloses(StopReporting(c), ClosePlan(WithoutNeutral), now, false, answers);
  }

  /** Cleaning up after a failure drains, disconnects and closes, and sends nothing. */
  lemma FailuresCloseSilently(c: Core, now: Duration, answers: CleanupAnswers)
    requires !c.lifecycle.Closing?
    ensures CleanUpAfterFailure(c, now, answers).out.wire
         == c.out.wire + [Drained(1_000_000_000, answers.drain), DisconnectCalled(answers.disconnect),
                          PortClosed(answers.close)]
  {
  }

  lemma CleanUpLands(w: World, a: Action)
    requires Enabled(w, a) && a.CleanUpFailed?
    ensures Perform(w, a).core == CleanUpAfterFailure(w.core, a.now, a.answers)
  {
    hide CleanUpAfterFailure;
  }

  lemma EveryFailureClosesSilently(r: Run, i: nat)
    requires FreshRun(r) && i < |r.actions| && r.actions[i].CleanUpFailed?
    ensures var answers := r.actions[i].answers;
            r.worlds[i + 1].core.out.wire
            == r.worlds[i].core.out.wire + [Drained(1_000_000_000, answers.drain), DisconnectCalled(answers.disconnect),
                                            PortClosed(answers.close)]
  {
    hide Perform, CleanUpAfterFailure, Unclosed, ClosedOnce;
    assert Leads(r.worlds[i], r.actions[i], r.worlds[i + 1]);
    CleanupHappensOnce(r, i);
    CleanUpLands(r.worlds[i], r.actions[i]);
    FailuresCloseSilently(r.worlds[i].core, r.actions[i].now, r.actions[i].answers);
  }

  lemma EffectKeepsUnclosed(w: World, w': World, e: Effect)
    requires HasEffect(w, w', e) && Unclosed(w.core.out.wire)
    ensures Unclosed(w'.core.out.wire)
  {
  }

  lemma LiveIsNotClosing(c: Core)
    requires Live(c)
    ensures !c.lifecycle.Closing?
  {
  }

  lemma FailingKeepsTrace(c: Core, p: Progress, e: WorkerCoreError)
    ensures var c' := FailWorker(c, p, e).0;
            c'.out.wire == c.out.wire && c'.lifecycle.Failed?
  {
  }

  lemma EndingCloses(w: World, a: Action)
    requires WorldInv(w) && Enabled(w, a) && Ending(a) && EndsClosed(w)
    ensures EndsClosed(Perform(w, a))
  {
    hide CloseWorker, CleanUpAfterFailure, FailWorker, Live, ClosedOnce, Unclosed;
    match a
    case Shutdown(request, now, answers) => ClosingCloses(w.core, w.progress, request, now, answers);
    case CleanUpFailed(now, answers) => CleaningUpCloses(w.core, now, answers);
    case Fail => FailingKeepsTrace(w.core, w.progress, w.fault.value);
    case _ =>
  }

  lemma WorkingStaysOpen(w: World, a: Action)
    requires WorldInv(w) && Enabled(w, a) && !Ending(a) && EndsClosed(w)
    ensures Unclosed(Perform(w, a).core.out.wire)
  {
    EnabledIsOpen(w, a);
    if a.Connect? {
      ConnectStaysOpen(w, a);
    } else {
      hide WorldInv, Enabled, Perform;
      var e := ActionHasEffect(w, a);
      EffectKeepsUnclosed(w, Perform(w, a), e);
    }
  }

  lemma EnabledIsOpen(w: World, a: Action)
    requires Enabled(w, a)
    ensures !w.phase.ClosedDown? && !w.phase.CleanedUp?
    ensures !Ending(a) ==> Alive(w.phase)
  {
  }

  lemma ConnectStaysOpen(w: World, a: Action)
    requires Enabled(w, a) && a.Connect? && Unclosed(w.core.out.wire)
    ensures Unclosed(Perform(w, a).core.out.wire)
  {
    hide ConnectCommand;
    ConnectEffect(w.core, w.progress, a.kind, a.timeout, a.error, a.now);
  }

  lemma StepEndsClosed(w: World, a: Action)
    requires WorldInv(w) && Enabled(w, a) && EndsClosed(w)
    ensures EndsClosed(Perform(w, a))
  {
    if Ending(a) {
      EndingCloses(w, a);
    } else {
      hide Unclosed, ClosedOnce, Enabled, Perform;
      WorkingStaysOpen(w, a);
      StepKeepsWorldInv(w, a);
      WorkingStaysAlive(w, a);
      LiveIsNotClosing(Perform(w, a).core);
    }
  }

  lemma WorkingStaysAlive(w: World, a: Action)
    requires WorldInv(w) && Enabled(w, a) && !Ending(a)
    ensures Alive(Perform(w, a).phase)
  {
    hide Live, HandleEvent, Drive, InputStep, ConnectCommand, RunDue;
  }

  /** Every run of a new worker that ended, by a close, a drop, a failure or a lost activity source, was cleaned up
      exactly once, and nothing happens after it. */
  lemma {:induction false} CleanupHappensOnce(r: Run, i: nat)
    requires FreshRun(r) && i < |r.worlds|
    ensures EndsClosed(r.worlds[i])
    ensures r.worlds[i].phase.ClosedDown? || r.worlds[i].phase.CleanedUp? ==> i == |r.actions|
  {
    hide EndsClosed, WorldInv, Enabled, Perform;
    if i == 0 {
      NewWorldIsOpen(r);
    } else {
      var w, a := r.worlds[i - 1], r.actions[i - 1];
      assert Leads(w, a, r.worlds[i]);
      FreshRunKeepsWorldInv(r, i - 1);
      CleanupHappensOnce(r, i - 1);
      StepEndsClosed(w, a);
    }
    if i < |r.actions| {
      assert Leads(r.worlds[i], r.actions[i], r.worlds[i + 1]);
      EnabledIsOpen(r.worlds[i], r.actions[i]);
    }
  }

  lemma NewWorldIsOpen(r: Run)
    requires FreshRun(r)
    ensures EndsClosed(r.worlds[0])
  {
  }

  // ---- The kept failure ----

  /** The phases a cleanup runs, in order, with what each one answered. */
  function PhaseErrors(plan: CleanupPlan, connected: bool, a: CleanupAnswers): seq<(CleanupPhase, CallResult)> {
    (if SendsNeutral(plan, connected)
     then [(NeutralPhase, if a.neutral.Refused? then Some(a.neutral.kind) else None)] else [])
    + (if plan.drainInterrupt then [(DrainPhase, a.drain)] else [])
    + [(DisconnectPhase, a.disconnect), (ClosePhase, a.close)]
  }

  predicate FailsFirstAt(phases: seq<(CleanupPhase, CallResult)>, k: nat, failure: CleanupFailure) {
    && k < |phases| && phases[k] == (failure.phase, Some(failure.kind))
    && forall j :: 0 <= j < k ==> phases[j].1.None?
  }

  /** The kept failure is that of the earliest phase that failed, and there is none only if none failed. */
  lemma KeptFailureIsTheEarliest(plan: CleanupPlan, connected: bool, a: CleanupAnswers)
    ensures var phases := PhaseErrors(plan, connected, a);
            match EarliestFailure(plan, connected, a)
            case None => forall k :: 0 <= k < |phases| ==> phases[k].1.None?
            case Some(failure) => exists k: nat :: FailsFirstAt(phases, k, failure)
  {
    var phases := PhaseErrors(plan, connected, a);
    var neutral := if SendsNeutral(plan, connected) then 1 else 0;
    var drain := if plan.drainInterrupt then 1 else 0;
    assert neutral == 1 ==> phases[0].0 == NeutralPhase;
    assert drain == 1 ==> phases[neutral] == (DrainPhase, a.drain);
    assert phases[neutral + drain] == (DisconnectPhase, a.disconnect);
    assert phases[neutral + drain + 1] == (ClosePhase, a.close);
    var kept := EarliestFailure(plan, connected, a);
    if kept.Some? {
      var k := match kept.value.phase
               case NeutralPhase => 0
               case DrainPhase => neutral
               case DisconnectPhase => neutral + drain
               case ClosePhase => neutral + drain + 1;
      assert FailsFirstAt(phases, k, kept.value);
    }
  }
}
