/** What the reply holdoff stops, and what it does not. */
module Holdoffs {
  import opened Types
  import opened Cadence
  import opened Command
  import opened Cleanup
  import opened Effects
  import opened Evidence
  import opened Handshakes
  import opened Machine
  import opened PeriodicPolicies
  import opened Readiness
  import opened Runs
  import opened Sender
  import opened Session
  import opened Taps
  import opened Transport
  import opened Wire
  import opened WorldInvariant

  /** The worker as it would be had no reply been recorded. */
  function Unheld(c: Core): Core {
    c.(policy := c.policy.(holdoff := None))
  }

  /** The trace after an action does not depend on the holdoff. */
  predicate SameTrace(o: Outcome, unheld: Outcome) {
    o.core.out.wire == unheld.core.out.wire
  }

  lemma ConnectIgnoresHoldoff(c: Core, p: Progress, kind: ConnectionCommandKind, timeout: Duration, error: CallResult,
                              now: Duration)
    ensures SameTrace(ConnectCommand(c, p, kind, timeout, error, now),
                      ConnectCommand(Unheld(c), p, kind, timeout, error, now))
  {
    ConnectEffect(c, p, kind, timeout, error, now);
    ConnectEffect(Unheld(c), p, kind, timeout, error, now);
  }

  lemma InputIgnoresHoldoff(c: Core, p: Progress, command: InputCommand, now: Duration, outcome: SendOutcome)
    ensures SameTrace(InputStep(c, p, command, now, outcome), InputStep(Unheld(c), p, command, now, outcome))
  {
    hide CommitAndSend, SendThenCommit, SendInput;
  }

  lemma EventIgnoresHoldoff(c: Core, p: Progress, event: SessionEvent, now: Duration, outcome: SendOutcome)
    ensures SameTrace(HandleEvent(c, p, event, now, outcome), HandleEvent(Unheld(c), p, event, now, outcome))
  {
    hide Output.HandleOutput;
  }

  lemma SettlingKeepsTrace(c: Core, p: Progress, now: Duration)
    requires c.connection.Some?
    ensures SettleReadiness(c, p, now).core.out.wire == c.out.wire
  {
    hide EvaluatePeriodic, EvaluateDirect;
  }

  lemma DriveIgnoresHoldoff(c: Core, p: Progress, now: Duration, outcome: SendOutcome)
    ensures SameTrace(Drive(c, p, now, outcome), Drive(Unheld(c), p, now, outcome))
  {
    hide StepShake, SettleReadiness;
    if c.connection.Some? && InactiveError(c.connection.value.gate, now, c.sessions).None? {
      HandshakeAnswers(c, p, now, outcome);
      HandshakeAnswers(Unheld(c), p, now, outcome);
      var o, unheld := DriveHandshake(c, p, now, outcome), DriveHandshake(Unheld(c), p, now, outcome);
      SettlingKeepsTrace(o.core, o.progress, now);
      SettlingKeepsTrace(unheld.core, unheld.progress, now);
    }
  }

  lemma ReleaseIgnoresHoldoff(c: Core, p: Progress, now: Duration, capacity: bool, outcome: SendOutcome)
    requires TapDue(c, now) || c.mode.Direct?
    ensures SameTrace(RunDue(c, p, now, capacity, outcome), RunDue(Unheld(c), p, now, capacity, outcome))
  {
    hide CommitAndSend, SendThenCommit, SendInput;
  }

  lemma AutomaticSendIsHeld(c: Core, p: Progress, now: Duration, capacity: bool, outcome: SendOutcome)
    requires c.mode.Periodic? && !TapDue(c, now) && c.policy.Held(now)
    ensures RunDue(c, p, now, capacity, outcome).core.out.wire == c.out.wire
  {
  }

  lemma ClosingIgnoresHoldoff(c: Core, p: Progress, request: ShutdownRequest, now: Duration, answers: CleanupAnswers)
    ensures CloseWorker(c, p, request, now, answers).0.out.wire
         == CloseWorker(Unheld(c), p, request, now, answers).0.out.wire
  {
    hide RunCleanup;
  }

  lemma CleanUpIgnoresHoldoff(c: Core, p: Progress, e: WorkerCoreError, now: Duration, answers: CleanupAnswers)
    ensures CleanUpAfterFailure(c, now, answers).out.wire == CleanUpAfterFailure(Unheld(c), now, answers).out.wire
    ensures FailWorker(c, p, e).0.out.wire == FailWorker(Unheld(c), p, e).0.out.wire
  {
    hide RunCleanup;
  }

  // ---- Worlds ----

  function UnheldWorld(w: World): World {
    w.(core := Unheld(w.core))
  }

  lemma UnheldIsEnabled(w: World, a: Action)
    ensures Enabled(w, a) <==> Enabled(UnheldWorld(w), a)
  {
  }

  lemma WorkIgnoresHoldoff(w: World, a: Action)
    requires Enabled(w, a) && !Ending(a) && !Automatic(w.core, a)
    ensures Perform(w, a).core.out.wire == Perform(UnheldWorld(w), a).core.out.wire
  {
    hide ConnectCommand, InputStep, HandleEvent, Drive, RunDue;
    UnheldIsEnabled(w, a);
    match a
    case Connect(kind, timeout, error, now) => ConnectIgnoresHoldoff(w.core, w.progress, kind, timeout, error, now);
    case Input(command, now, outcome) => InputIgnoresHoldoff(w.core, w.progress, command, now, outcome);
    case Event(now, outcome) =>
      if w.phase.events[0].Some? {
        EventIgnoresHoldoff(w.core, w.progress, w.phase.events[0].value, now, outcome);
      }
    case DriveConnection(now, outcome) => DriveIgnoresHoldoff(w.core, w.progress, now, outcome);
    case Due(now, capacity, outcome) => ReleaseIgnoresHoldoff(w.core, w.progress, now, capacity, outcome);
    case _ =>
  }

  lemma EndingsIgnoreHoldoff(w: World, a: Action)
    requires Enabled(w, a) && Ending(a)
    ensures Perform(w, a).core.out.wire == Perform(UnheldWorld(w), a).core.out.wire
  {
    hide CloseWorker, FailWorker, CleanUpAfterFailure;
    UnheldIsEnabled(w, a);
    match a
    case Shutdown(request, now, answers) => ClosingIgnoresHoldoff(w.core, w.progress, request, now, answers);
    case CleanUpFailed(now, answers) => CleanUpIgnoresHoldoff(w.core, w.progress, InvalidLifecycle, now, answers);
    case Fail =>
      if w.fault.Some? {
        CleanUpIgnoresHoldoff(w.core, w.progress, w.fault.value, w.time, CleanupAnswers(Accepted, None, None, None));
      }
    case _ =>
  }

  lemma AutomaticIsHeld(w: World, a: Action)
    requires Enabled(w, a) && Automatic(w.core, a) && w.core.policy.Held(a.now)
    ensures Perform(w, a).core.out.wire == w.core.out.wire
  {
    hide RunDue;
    AutomaticSendIsHeld(w.core, w.progress, a.now, a.capacity, a.outcome);
  }

  /** While a holdoff runs, any action whatever sends exactly what it would send without one, except the automatic send,
      which sends nothing. */
  lemma HoldoffStopsOnlyAutomaticSends(w: World, a: Action)
    requires Enabled(w, a) && w.core.policy.Held(Reading(a, w.time))
    ensures Enabled(UnheldWorld(w), a)
    ensures NewSends(w.core, Perform(w, a).core)
         == if Automatic(w.core, a) then 0 else NewSends(Unheld(w.core), Perform(UnheldWorld(w), a).core)
  {
    hide Enabled, Perform, Automatic;
    UnheldIsEnabled(w, a);
    if Automatic(w.core, a) {
      AutomaticReads(w, a);
      AutomaticIsHeld(w, a);
    } else if Ending(a) {
      EndingsIgnoreHoldoff(w, a);
    } else {
      WorkIgnoresHoldoff(w, a);
    }
  }

  lemma AutomaticReads(w: World, a: Action)
    requires Automatic(w.core, a)
    ensures Reading(a, w.time) == a.now
  {
  }

  /** In every run of a new worker, within 300 ms after a recorded reply of the current session a report goes out exactly
      if the action would send it anyway and is not the automatic send. */
  lemma ReportsAfterARecentReply(r: Run, i: nat, k: nat)
    requires FreshRun(r) && i < |r.actions| && Alive(r.worlds[i].phase)
    requires r.worlds[i].core.mode.Periodic? && r.worlds[i].core.sessions.current.Some?
    requires k < |RecordOf(r, i).replies|
    requires Reading(r.actions[i], r.worlds[i].time) < RecordOf(r, i).replies[k] + REPLY_HOLDOFF
    ensures var w, a := r.worlds[i], r.actions[i];
            0 < NewSends(w.core, r.worlds[i + 1].core) <==>
            !Automatic(w.core, a) && 0 < NewSends(Unheld(w.core), Perform(UnheldWorld(w), a).core)
  {
    hide Enabled, Perform, RecordAction, Automatic, NewSends, Reading;
    var w, a := r.worlds[i], r.actions[i];
    assert Leads(w, a, r.worlds[i + 1]);
    RunIsBacked(r, i);
    HoldoffStopsOnlyAutomaticSends(w, a);
  }
}
