/** What the published projection shows, as long as a run goes on and after it has ended. */
module Projections {
  import opened Types
  import opened Cleanup
  import Clock
  import opened Command
  import opened Effects
  import Endings
  import opened Invariant
  import opened Machine
  import opened Protocol
  import Responses
  import opened Runs
  import opened Sender
  import Status
  import opened Transport
  import opened Wire
  import opened WorldInvariant

  /** Until the run ends the projection shows the worker's own lifecycle, connection, session and input, the latest
      request of the host, the counts of the accepted reports on the trace, and the sender's report mode exactly while a
      session is current. */
  lemma ProjectionShowsTheWorker(r: Run, i: nat)
    requires FreshRun(r) && i < |r.worlds| && Alive(r.worlds[i].phase)
    ensures var c := r.worlds[i].core;
            var shown := c.out.status;
            && shown.lifecycle == c.lifecycle && shown.connected == c.connected
            && shown.sessionId == c.sessions.current && shown.snapshot == c.input
            && shown.inputs == Saturated(CountInputs(AcceptedReports(c.out.wire)))
            && shown.replies == Saturated(|AcceptedReports(c.out.wire)| - CountInputs(AcceptedReports(c.out.wire)))
            && shown.reportMode == (if c.sessions.current.Some? then c.out.sender.session.reportMode else None)
            && shown.lastSubcommand == c.observed.last && shown.failure.None?
  {
    hide Perform, Enabled;
    FreshRunKeepsWorldInv(r, i);
    AcceptanceOnlyCommitment(r, i);
  }

  // ---- Ended runs ----

  /** No connection, no session and no report mode, but still the input and the counts of the reports accepted on the
      trace, the neutral report of a close included. */
  predicate ShowsEnd(c: Core, lifecycle: LifecycleState, failure: Option<Status.FailureMessage>) {
    var shown := c.out.status;
    && shown.lifecycle == lifecycle && shown.failure == failure
    && !shown.connected && shown.sessionId.None? && shown.reportMode.None? && shown.snapshot == c.input
    && Counts(c)
  }

  predicate Counts(c: Core) {
    var reports := AcceptedReports(c.out.wire);
    && CountersAgree(c, reports)
    && c.out.status.inputs == Saturated(CountInputs(reports))
    && c.out.status.replies == Saturated(|reports| - CountInputs(reports))
  }

  /** The message of the error the worker failed with, or that of a loop nothing could wake. */
  function ShownFailure(w: World): Status.FailureMessage {
    match w.fault
    case None => Status.LoopFailed
    case Some(InvalidLifecycle) => Status.LifecycleInvariantFailed
    case Some(HandshakeFailed(_)) => Status.HandshakeFailed
    case Some(TransportFailed(kind)) => if kind == InvalidKeyStore then Status.KeyStoreFailed else Status.TransportFailed
  }

  predicate EndShows(w: World) {
    && (w.phase.ClosedDown? ==> ShowsEnd(w.core, LifecycleState.Closed, None))
    && (w.phase.Broken? || w.phase.Abandoned? || w.phase.CleanedUp? ==>
          ShowsEnd(w.core, LifecycleState.Failed, Some(ShownFailure(w))))
  }

  lemma FailingShows(c: Core, p: Progress, e: WorkerCoreError)
    requires Mirrors(c) && Counts(c)
    ensures ShowsEnd(FailWorker(c, p, e).0, LifecycleState.Failed, Some(FailureMessage(e)))
    ensures ShowsEnd(Abandon(c), LifecycleState.Failed, Some(Status.LoopFailed))
  {
    hide AcceptedReports, CountInputs, Saturated, FailureMessage;
  }

  lemma ClosingCallsAcceptNothing(wire: seq<PortCall>, plan: CleanupPlan, answers: CleanupAnswers)
    ensures AcceptedReports(wire + ClosingCalls(plan, answers)) == AcceptedReports(wire)
  {
    var drained := wire + if plan.drainInterrupt then [Drained(plan.drainTimeout, answers.drain)] else [];
    var disconnected := drained + [DisconnectCalled(answers.disconnect)];
    if plan.drainInterrupt {
      OneMoreCall(wire, Drained(plan.drainTimeout, answers.drain));
    } else {
      assert drained == wire;
    }
    OneMoreCall(drained, DisconnectCalled(answers.disconnect));
    OneMoreCall(disconnected, PortClosed(answers.close));
    assert wire + ClosingCalls(plan, answers) == disconnected + [PortClosed(answers.close)];
  }

  lemma NeutralCounts(c: Core, o: Outbound, now: Duration, outcome: SendOutcome)
    requires Counts(c) && o == c.out.(status := o.status) && o.status == c.out.status.(lifecycle := o.status.lifecycle)
    ensures var sent := SendInput(o, NEUTRAL, Clock.ProtocolTimestamp(now), outcome);
            Counts(c.(out := sent))
  {
    hide AcceptedReports, CountInputs, Saturated;
    var sent := SendInput(o, NEUTRAL, Clock.ProtocolTimestamp(now), outcome);
    var e := InputEffect(o, NEUTRAL, Clock.ProtocolTimestamp(now), outcome);
    SendInputApplies(o, NEUTRAL, Clock.ProtocolTimestamp(now), outcome);
    EffectAppends(o, sent, e, 0);
    assert o.wire[0..] == o.wire && sent.wire[0..] == sent.wire;
    EffectKeepsCounters(c, c.(out := sent), e, AcceptedReports(c.out.wire));
  }

  /** The neutral report of a close is counted if it is accepted, and nothing else is. */
  lemma CleanupCounts(c: Core, plan: CleanupPlan, now: Duration, publish: bool, answers: CleanupAnswers)
    requires Counts(c) && !c.lifecycle.Closing?
    ensures Counts(RunCleanupOn(c, plan, now, publish, answers))
  {
    hide AcceptedReports, CountInputs, Saturated, ClosingCalls, SendInput;
    var closing := if publish then WithLifecycle(c.out, LifecycleState.Closing) else c.out;
    NeutralCounts(c, closing, now, answers.neutral);
    var sent := if SendsNeutral(plan, c.connected)
                then SendInput(closing, NEUTRAL, Clock.ProtocolTimestamp(now), answers.neutral) else closing;
    ClosingCallsAcceptNothing(sent.wire, plan, answers);
  }

  lemma ClosingShows(c: Core, p: Progress, request: ShutdownRequest, now: Duration, answers: CleanupAnswers)
    requires Mirrors(c) && Counts(c) && !c.lifecycle.Closing?
    ensures ShowsEnd(CloseWorker(c, p, request, now, answers).0, LifecycleState.Closed, None)
  {
    hide Counts, EncodeImu;
    var (answered, _) := CompleteConnection(c, p, Err(ShutdownInterrupted));
    var stopped := StopReporting(answered);
    SameCounts(c, stopped);
    CleanupCounts(stopped, ShutdownPlan(request), now, true, answers);
    SameCounts(RunCleanupOn(stopped, ShutdownPlan(request), now, true, answers),
               CloseWorker(c, p, request, now, answers).0);
  }

  lemma SameCounts(c: Core, c': Core)
    requires Counts(c) && c'.out.wire == c.out.wire && c'.out.sender == c.out.sender
    requires c'.out.status.inputs == c.out.status.inputs && c'.out.status.replies == c.out.status.replies
    ensures Counts(c')
  {
  }

  lemma CleaningUpShows(c: Core, now: Duration, answers: CleanupAnswers, failure: Option<Status.FailureMessage>)
    requires ShowsEnd(c, LifecycleState.Failed, failure) && !c.lifecycle.Closing?
    ensures ShowsEnd(CleanUpAfterFailure(c, now, answers), LifecycleState.Failed, failure)
  {
    hide Counts;
    var stopped := StopReporting(c);
    SameCounts(c, stopped);
    CleanupCounts(stopped, ClosePlan(WithoutNeutral), now, false, answers);
    SameCounts(RunCleanupOn(stopped, ClosePlan(WithoutNeutral), now, false, answers),
               CleanUpAfterFailure(c, now, answers));
  }

  lemma EndingShows(w: World, a: Action)
    requires WorldInv(w) && Enabled(w, a) && Ending(a) && EndShows(w) && !w.core.lifecycle.Closing?
    requires Alive(w.phase) ==> Counts(w.core)
    ensures EndShows(Perform(w, a))
  {
    hide CloseWorker, FailWorker, CleanUpAfterFailure, Abandon, ShowsEnd, Counts;
    match a
    case Shutdown(request, now, answers) => ClosingShows(w.core, w.progress, request, now, answers);
    case CleanUpFailed(now, answers) => CleaningUpShows(w.core, now, answers, Some(ShownFailure(w)));
    case Fail => FailingShows(w.core, w.progress, w.fault.value);
    case WaitFails => FailingShows(w.core, w.progress, InvalidLifecycle);
  }

  lemma LiveCounts(r: Run, i: nat)
    requires FreshRun(r) && i < |r.worlds| && Alive(r.worlds[i].phase)
    ensures Counts(r.worlds[i].core)
  {
    hide Perform, Enabled;
    FreshRunKeepsWorldInv(r, i);
    AcceptanceOnlyCommitment(r, i);
  }

  lemma NotClosing(w: World)
    requires Endings.EndsClosed(w) && !w.phase.ClosedDown? && !w.phase.CleanedUp?
    ensures !w.core.lifecycle.Closing?
  {
  }

  /** Every ended run of a new worker shows how it ended: closed without a failure, or failed, with the message of what it
      failed on also after its cleanup. */
  lemma {:induction false} EndedRunsShowTheirEnd(r: Run, i: nat)
    requires FreshRun(r) && i < |r.worlds|
    ensures EndShows(r.worlds[i])
  {
    hide WorldInv, Enabled, Perform, ShowsEnd, Counts, Endings.EndsClosed;
    if !Alive(r.worlds[i].phase) {
      Responses.FreshRunStartsIdle(r);
      var w, a := r.worlds[i - 1], r.actions[i - 1];
      assert Leads(w, a, r.worlds[i]);
      FreshRunKeepsWorldInv(r, i - 1);
      Endings.CleanupHappensOnce(r, i - 1);
      NotClosing(w);
      if !Ending(a) {
        Endings.WorkingStaysAlive(w, a);
      } else {
        if Alive(w.phase) {
          LiveCounts(r, i - 1);
        }
        EndedRunsShowTheirEnd(r, i - 1);
        EndingShows(w, a);
      }
    }
  }
}
