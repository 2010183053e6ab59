/** What every run of a new worker guarantees between its actions: errors that cannot happen, the agreement of its parts,
    and the deadlines a step reports. */
module Guarantees {
  import opened Types
  import Clock
  import opened Command
  import opened Effects
  import opened Evidence
  import opened Invariant
  import opened Machine
  import opened Readiness
  import opened Runs
  import opened Session
  import opened Transport
  import opened Wire
  import opened WorldInvariant

  // ---- Errors that cannot happen ----

  /** Readiness errors a live attempt can meet: a lost connection, a timeout, or an overflowing schedule. */
  predicate CanHappen(e: ReadinessError) {
    !e.StaleSession? && !e.HandshakeSessionMismatch?
  }

  lemma ReadinessErrorsCanHappen(c: Core, now: Duration)
    requires Live(c) && c.connection.Some?
    ensures var inactive := InactiveError(c.connection.value.gate, now, c.sessions);
            inactive.Some? ==> inactive == Some(TimedOut)
    ensures EvaluateReadiness(c, now).1.Err? ==> CanHappen(EvaluateReadiness(c, now).1.error)
  {
  }

  /** Between actions a Direct attempt still waits for its handshake: it is never completed and left there. */
  predicate AwaitsHandshake(c: Core) {
    c.mode.Direct? && c.connection.Some? ==>
      c.connection.value.handshake.Some? && !c.connection.value.handshake.value.stopped
  }

  /** A Direct handshake completes only on a ready protocol, so its evaluation finds it ready. */
  lemma DirectEvaluationNeverAwaitsProtocol(c: Core, p: Progress, now: Duration, outcome: SendOutcome)
    requires Live(c) && AwaitsHandshake(c) && c.mode.Direct? && c.connection.Some?
    ensures var o := DriveHandshake(c, p, now, outcome);
            && (o.fault.None? ==> EvaluateReadiness(o.core, now).1 != Ok(Pending(ForProtocol)))
            && (o.fault.Some? ==> AwaitsHandshake(o.core))
  {
  }

  lemma DriveAwaitsHandshake(c: Core, p: Progress, now: Duration, outcome: SendOutcome)
    requires Live(c) && AwaitsHandshake(c)
    ensures AwaitsHandshake(Drive(c, p, now, outcome).core)
  {
    hide DriveHandshake;
    if c.mode.Direct? && c.connection.Some? && InactiveError(c.connection.value.gate, now, c.sessions).None? {
      DirectEvaluationNeverAwaitsProtocol(c, p, now, outcome);
      DriveHandshakePreservesLive(c, p, now, outcome);
      DriveHandshakeKeepsMode(c, p, now, outcome);
    } else {
      DrivesKeepMode(c, p, now, outcome);
    }
  }

  lemma DriveHandshakeKeepsMode(c: Core, p: Progress, now: Duration, outcome: SendOutcome)
    requires c.connection.Some?
    ensures DriveHandshake(c, p, now, outcome).core.mode == c.mode
  {
  }

  lemma EventAwaitsHandshake(c: Core, p: Progress, event: SessionEvent, now: Duration, outcome: SendOutcome)
    requires AwaitsHandshake(c)
    ensures AwaitsHandshake(HandleEvent(c, p, event, now, outcome).core)
  {
  }

  lemma ConnectAwaitsHandshake(c: Core, p: Progress, kind: ConnectionCommandKind, timeout: Duration, error: CallResult,
                               now: Duration)
    requires AwaitsHandshake(c)
    ensures AwaitsHandshake(ConnectCommand(c, p, kind, timeout, error, now).core)
  {
  }

  lemma StepAwaitsHandshake(w: World, a: Action)
    requires WorldInv(w) && Enabled(w, a) && !Ending(a) && AwaitsHandshake(w.core)
    ensures AwaitsHandshake(Perform(w, a).core)
  {
    hide Live, ConnectCommand, HandleEvent, Drive, InputStep, RunDue;
    match a
    case Connect(kind, timeout, error, now) => ConnectAwaitsHandshake(w.core, w.progress, kind, timeout, error, now);
    case Event(now, outcome) =>
      if w.phase.events[0].Some? {
        EventAwaitsHandshake(w.core, w.progress, w.phase.events[0].value, now, outcome);
      }
    case DriveConnection(now, outcome) => DriveAwaitsHandshake(w.core, w.progress, now, outcome);
    case Input(command, now, outcome) => InputKeepsAttempt(w.core, w.progress, command, now, outcome);
    case Due(now, capacity, outcome) => DueKeepsAttempt(w.core, w.progress, now, capacity, outcome);
    case _ =>
  }

  lemma {:induction false} RunAwaitsHandshake(r: Run, i: nat)
    requires FreshRun(r) && i < |r.worlds| && Alive(r.worlds[i].phase)
    ensures AwaitsHandshake(r.worlds[i].core)
  {
    hide AwaitsHandshake, WorldInv, Enabled, Perform;
    if i == 0 {
      NewWorldAwaitsNothing(r);
    } else {
      var w, a := r.worlds[i - 1], r.actions[i - 1];
      assert Leads(w, a, r.worlds[i]);
      FreshRunKeepsWorldInv(r, i - 1);
      DeadStaysDead(w, a);
      RunAwaitsHandshake(r, i - 1);
      StepAwaitsHandshake(w, a);
    }
  }

  lemma NewWorldAwaitsNothing(r: Run)
    requires FreshRun(r)
    ensures AwaitsHandshake(r.worlds[0].core)
  {
  }

  /** In every run of a new worker, a drive of the connection never meets a stale session, a handshake of another
      session, or an invalid lifecycle, and never leaves a Direct attempt waiting for its protocol. */
  lemma ImpossibleErrorsNeverHappen(r: Run, i: nat, now: Duration, outcome: SendOutcome)
    requires FreshRun(r) && i < |r.worlds| && Alive(r.worlds[i].phase) && r.worlds[i].core.connection.Some?
    ensures var c, p := r.worlds[i].core, r.worlds[i].progress;
            var inactive := InactiveError(c.connection.value.gate, now, c.sessions);
            var o := DriveHandshake(c, p, now, outcome);
            && (inactive.Some? ==> inactive == Some(TimedOut))
            && Drive(c, p, now, outcome).fault != Some(InvalidLifecycle)
            && o.core.connection.Some?
            && (o.fault.None? ==>
                  var (_, result) := EvaluateReadiness(o.core, now);
                  && (result.Err? ==> CanHappen(result.error))
                  && (c.mode.Direct? ==> result != Ok(Pending(ForProtocol))))
  {
    hide Perform, Enabled, DriveHandshake, EvaluateReadiness, Drive;
    FreshRunKeepsWorldInv(r, i);
    RunAwaitsHandshake(r, i);
    var c, p := r.worlds[i].core, r.worlds[i].progress;
    ReadinessErrorsCanHappen(c, now);
    DriveHandshakePreservesLive(c, p, now, outcome);
    var o := DriveHandshake(c, p, now, outcome);
    ReadinessErrorsCanHappen(o.core, now);
    if c.mode.Direct? {
      DirectEvaluationNeverAwaitsProtocol(c, p, now, outcome);
    }
    var e := DriveEffect(c, p, now, outcome);
  }

  /** The agreement every live worker keeps, spelled out. */
  lemma LiveWorkersAgree(r: Run, i: nat)
    requires FreshRun(r) && i < |r.worlds| && Alive(r.worlds[i].phase)
    ensures var c := r.worlds[i].core;
            && (c.lifecycle.Connecting? <==> c.connection.Some?)
            && (c.pending.Some? <==> c.lifecycle.Connecting?)
            && (c.tap.Some? ==> c.lifecycle.Ready?)
            && (c.lifecycle.Ready? ==> c.sessions.current.Some? && c.connected)
            && (c.connection.Some? ==>
                  c.sessions.current == Some(c.connection.value.sessionId)
                  && c.connection.value.gate.sessionId == c.connection.value.sessionId
                  && (c.connection.value.handshake.Some? ==>
                        c.connection.value.handshake.value.sessionId == c.connection.value.sessionId))
  {
    hide Perform, Enabled;
    FreshRunKeepsWorldInv(r, i);
  }

  // ---- Deadlines ----

  predicate AtMost(deadline: Option<Duration>, bound: Duration) {
    deadline.Some? && deadline.value <= bound
  }

  /** A continuing step reports a deadline no later than anything it has to do by then: the deadline of the pending
      operation, the release of the pending tap, and the next bootstrap trial. What was already due when the step last
      looked is no longer pending. */
  lemma StepsReportSoundDeadlines(r: Run, i: nat)
    requires FreshRun(r) && i < |r.actions| && r.actions[i].Finish?
    ensures var w := r.worlds[i + 1];
            && w.phase.Delivering?
            && (w.core.pending.Some? ==>
                  w.core.connection.Some? && AtMost(w.progress.nextDeadline, w.core.connection.value.gate.deadline)
                  && w.driven < w.core.connection.value.gate.deadline)
            && (w.core.tap.Some? ==>
                  AtMost(w.progress.nextDeadline, w.core.tap.value.releaseAt) && w.time < w.core.tap.value.releaseAt)
            && (w.core.connection.Some? && w.core.connection.value.handshake.Some?
                  && w.core.connection.value.handshake.value.NextDeadline().Some? ==>
                  AtMost(w.progress.nextDeadline, w.core.connection.value.handshake.value.NextDeadline().value))
            && (w.core.policy.NextDeadline().Some? ==> AtMost(w.progress.nextDeadline, w.core.policy.NextDeadline().value))
  {
    hide Enabled, Perform;
    assert Leads(r.worlds[i], r.actions[i], r.worlds[i + 1]);
    FreshRunKeepsWorldInv(r, i + 1);
    FinishedStep(r.worlds[i], r.actions[i]);
  }

  lemma FinishedStep(w: World, a: Action)
    requires Enabled(w, a) && a.Finish?
    ensures var w' := Perform(w, a);
            && w'.phase.Delivering? && w'.core == w.core && w'.time == w.time && w'.driven == w.driven
            && w'.progress.immediate == w.progress.immediate
            && w'.progress.nextDeadline == Clock.MinimumDeadline(w.progress.nextDeadline, NextDeadline(w.core))
  {
    hide NextDeadline, DueAllowed;
  }
}
