/** What the callers of commands are told: for every way in which a pending command can end, its exact result. */
module CommandResults {
  import opened Types
  import Bootstraps
  import opened Clock
  import Cleanup
  import opened Command
  import opened Effects
  import Endings
  import opened Evidence
  import opened Handshakes
  import opened Invariant
  import opened Machine
  import opened PeriodicPolicies
  import opened Readiness
  import opened Replies
  import opened Runs
  import opened Scheduler
  import opened Sender
  import opened Session
  import TapRuns
  import opened Taps
  import opened Transport
  import opened Wire
  import opened WorldInvariant

  // ---- Pair and Reconnect: what a drive answers ----

  /** The session's record completes the handshake: topology, an accepted bootstrap, and in Periodic mode a request. */
  predicate Completes(c: Core, e: Record) {
    e.bootstrapped && (if c.mode.Periodic? then e.requests != [] else HostIsReady(c.out.sender.session))
  }

  /** A reply of the session was recorded less than 300 ms ago. */
  ghost predicate RecentlyReplied(e: Record, now: Duration) {
    exists k :: 0 <= k < |e.replies| && now as int < e.replies[k] as int + 300_000_000
  }

  /** The result of a pending connection command at a drive, told from the session's record: a timeout from its deadline
      on; success once the handshake is complete and the host is ready, in Periodic mode not within 300 ms of a reply; and
      failure if the report schedule that must then start does not fit. */
  ghost function DriveAnswer(c: Core, e: Record, now: Duration): Option<CommandResult>
    requires c.pending.Some?
  {
    var kind, session := c.pending.value, c.out.sender.session;
    if e.deadline <= now then Some(Err(ConnectionRejected(kind, ReadinessFailed(TimedOut))))
    else if !Completes(c, e) then None
    else if c.mode.Periodic? && (session.reportMode != Some(0x30) || RecentlyReplied(e, now)) then None
    else if c.mode.Periodic? && c.policy.schedule.None? && now + c.policy.period > DURATION_MAX then
      Some(Err(ConnectionRejected(kind, ReadinessFailed(ReadinessScheduler(DeadlineOverflow)))))
    else if HostIsReady(session) then Some(Ok(()))
    else None
  }

  lemma HeldAfterReply(c: Core, e: Record, now: Duration)
    requires Covers(c.policy, e.replies)
    ensures c.policy.Held(now) <==> RecentlyReplied(e, now)
  {
  }

  /** A handshake that its record completes has stopped by the end of the step, and such a step does not fail. */
  lemma ShakeCompletes(h: Shake, o: Outbound, now: Duration, outcome: SendOutcome, e: Record)
    requires ShakeBacked(h, e)
    ensures var (h', o', r) := StepShake(h, o, h.sessionId, now, e.requests != [], outcome);
            var ready := o.sender.session.ProtocolReady();
            && o'.sender.session.ProtocolReady() == ready
            && (RecordDrive(e, o.wire, o'.wire).bootstrapped && Satisfied(h.condition, e.requests != [], ready) ==>
                  h'.stopped && HandshakeFault(r).None?)
  {
    hide StepShake;
    DueBootstrapsAreTried(h, o, h.sessionId, now, e.requests != [], outcome);
    StepsKeepReadiness(h, o, now, e.requests != [], outcome);
  }

  lemma StepsKeepReadiness(h: Shake, o: Outbound, now: Duration, observedAny: bool, outcome: SendOutcome)
    ensures var (h', o', r) := StepShake(h, o, h.sessionId, now, observedAny, outcome);
            && o'.sender.session.ProtocolReady() == o.sender.session.ProtocolReady()
            && (h.stopped ==> h'.stopped)
            && (h.TopologyReady() && h.accepted && Satisfied(h.condition, observedAny, o.sender.session.ProtocolReady()) ==>
                  h'.stopped)
  {
  }

  predicate Done(c: Core) {
    c.connection.Some? && (c.connection.value.handshake.Some? ==> c.connection.value.handshake.value.stopped)
  }

  lemma HandshakeCompletes(c: Core, p: Progress, now: Duration, outcome: SendOutcome, e: Record)
    requires Live(c) && Backed(c, e) && c.connection.Some?
    ensures var o := DriveHandshake(c, p, now, outcome);
            && o.core == c.(out := o.core.out, connection := o.core.connection)
            && HostIsReady(o.core.out.sender.session) == HostIsReady(c.out.sender.session)
            && o.core.out.sender.session.reportMode == c.out.sender.session.reportMode
            && (Completes(c, RecordDrive(e, c.out.wire, o.core.out.wire)) ==> o.fault.None? && Done(o.core))
  {
    hide StepShake, RecordDrive, ShakeBacked, Covers;
    var a := c.connection.value;
    if a.handshake.Some? {
      ObservedWhatWasRequested(c.observed, e.requests);
      ShakeCompletes(a.handshake.value, c.out, now, outcome, e);
      DrivesRecordBootstraps(e, c.out.wire, DriveHandshake(c, p, now, outcome).core.out.wire);
      StepsKeepReportMode(a.handshake.value, c.out, now, e.requests != [], outcome);
    }
  }

  lemma StepsKeepReportMode(h: Shake, o: Outbound, now: Duration, observedAny: bool, outcome: SendOutcome)
    ensures var (_, o', _) := StepShake(h, o, h.sessionId, now, observedAny, outcome);
            && o'.sender.session.reportMode == o.sender.session.reportMode
            && o'.sender.session.playerLights == o.sender.session.playerLights
  {
  }

  lemma SettlingAnswers(c: Core, p: Progress, now: Duration, e: Record)
    requires Live(c) && Backed(c, e) && c.connection.Some? && c.pending.Some? && p.result.None? && now < e.deadline
    requires Completes(c, e) ==> Done(c)
    ensures var o := SettleReadiness(c, p, now);
            o.progress.result == DriveAnswer(c, e, now) && (o.core.pending.None? <==> o.progress.result.Some?)
  {
    hide RecentlyReplied;
    if c.mode.Periodic? {
      HeldAfterReply(c, e, now);
    }
  }

  lemma DrivingAnswers(c: Core, p: Progress, now: Duration, outcome: SendOutcome, e: Record)
    requires Live(c) && Backed(c, e) && c.pending.Some? && p.result.None?
    ensures var o := Drive(c, p, now, outcome);
            && o.progress.result == DriveAnswer(c, RecordDrive(e, c.out.wire, o.core.out.wire), now)
            && (o.core.pending.None? <==> o.progress.result.Some?)
  {
    hide DriveHandshake, SettleReadiness, LoseConnection, RecordDrive, Completes, RecentlyReplied, Covers;
    PendingHasConnection(c, e);
    if InactiveError(c.connection.value.gate, now, c.sessions).None? {
      var o := DriveHandshake(c, p, now, outcome);
      var e' := RecordDrive(e, c.out.wire, o.core.out.wire);
      DriveHandshakeIsBacked(c, p, now, outcome, e);
      HandshakeAnswers(c, p, now, outcome);
      HandshakeCompletes(c, p, now, outcome, e);
      DrivesRecordBootstraps(e, c.out.wire, o.core.out.wire);
      SameRecordAnswers(c, o.core, e', now);
      if o.fault.None? {
        DriveHandshakePreservesLive(c, p, now, outcome);
        SettlingIsSilent(o.core, o.progress, now);
        SettlingAnswers(o.core, o.progress, now, e');
      }
    } else {
      LosingTellsError(c, p, InactiveError(c.connection.value.gate, now, c.sessions).value);
      DrivesRecordBootstraps(e, c.out.wire, Drive(c, p, now, outcome).core.out.wire);
    }
  }

  /** When a drive starts the report schedule, and for when: once the handshake is complete and the host has set the
      standard report mode, not within 300 ms of a reply, with the first report one period later. */
  ghost function ScheduleAfter(c: Core, e: Record, now: Duration): Option<Schedule> {
    if e.deadline <= now then None
    else if c.policy.schedule.Some? then c.policy.schedule
    else if c.mode.Periodic? && Completes(c, e) && c.out.sender.session.reportMode == Some(0x30)
            && !RecentlyReplied(e, now) && now + c.policy.period <= DURATION_MAX
    then Some(Schedule(c.policy.period, now + c.policy.period))
    else None
  }

  lemma SettlingStarts(c: Core, p: Progress, now: Duration, e: Record)
    requires Live(c) && Backed(c, e) && c.connection.Some? && c.pending.Some? && now < e.deadline
    requires Completes(c, e) ==> Done(c)
    ensures SettleReadiness(c, p, now).core.policy.schedule == ScheduleAfter(c, e, now)
  {
    hide RecentlyReplied;
    if c.mode.Periodic? {
      HeldAfterReply(c, e, now);
    }
  }

  lemma DrivingStarts(c: Core, p: Progress, now: Duration, outcome: SendOutcome, e: Record)
    requires Live(c) && Backed(c, e) && c.pending.Some?
    ensures var c' := Drive(c, p, now, outcome).core;
            c'.policy.schedule == ScheduleAfter(c, RecordDrive(e, c.out.wire, c'.out.wire), now)
  {
    hide DriveHandshake, SettleReadiness, LoseConnection, RecordDrive, Completes, RecentlyReplied, Covers;
    PendingHasConnection(c, e);
    if InactiveError(c.connection.value.gate, now, c.sessions).None? {
      var o := DriveHandshake(c, p, now, outcome);
      var e' := RecordDrive(e, c.out.wire, o.core.out.wire);
      DriveHandshakeIsBacked(c, p, now, outcome, e);
      HandshakeCompletes(c, p, now, outcome, e);
      DrivesRecordBootstraps(e, c.out.wire, o.core.out.wire);
      SameRecordAnswers(c, o.core, e', now);
      if o.fault.None? {
        DriveHandshakePreservesLive(c, p, now, outcome);
        SettlingIsSilent(o.core, o.progress, now);
        SettlingStarts(o.core, o.progress, now, e');
      }
    } else {
      LosingTellsError(c, p, InactiveError(c.connection.value.gate, now, c.sessions).value);
      DrivesRecordBootstraps(e, c.out.wire, Drive(c, p, now, outcome).core.out.wire);
    }
  }

  /** Over every run of a new worker, at every drive of an attempt: the schedule runs, starts or stops as the record says. */
  lemma EveryScheduleStartsInTime(r: Run, i: nat)
    requires FreshRun(r) && i < |r.actions| && r.actions[i].DriveConnection? && r.worlds[i].core.pending.Some?
    ensures r.worlds[i + 1].core.policy.schedule == ScheduleAfter(r.worlds[i].core, RecordOf(r, i + 1), r.actions[i].now)
  {
    hide WorldInv, Enabled, Perform, ScheduleAfter, RecordDrive, Backed, Live;
    var w, a := r.worlds[i], r.actions[i];
    assert Leads(w, a, r.worlds[i + 1]);
    FreshRunKeepsWorldInv(r, i);
    Bootstraps.DriveLands(w, a);
    Endings.EnabledIsOpen(w, a);
    RunIsBacked(r, i);
    DrivingStarts(w.core, w.progress, a.now, a.outcome, RecordOf(r, i));
  }

  lemma PendingHasConnection(c: Core, e: Record)
    requires Live(c) && Backed(c, e) && c.pending.Some?
    ensures c.connection.Some? && c.connection.value.gate.deadline == e.deadline
    ensures forall now: Duration :: InactiveError(c.connection.value.gate, now, c.sessions)
                                    == if now < e.deadline then None else Some(TimedOut)
  {
  }

  /** The answer depends on the command, the mode, the host's session and the schedule alone. */
  lemma SameRecordAnswers(c: Core, c': Core, e: Record, now: Duration)
    requires c.pending.Some? && c'.pending == c.pending && c'.mode == c.mode && c'.policy == c.policy
    requires HostIsReady(c'.out.sender.session) == HostIsReady(c.out.sender.session)
    requires c'.out.sender.session.reportMode == c.out.sender.session.reportMode
    ensures DriveAnswer(c', e, now) == DriveAnswer(c, e, now) && Completes(c', e) == Completes(c, e)
    ensures ScheduleAfter(c', e, now) == ScheduleAfter(c, e, now)
  {
  }

  lemma LosingTellsError(c: Core, p: Progress, error: ReadinessError)
    requires c.pending.Some?
    ensures var (c', p') := LoseConnection(c, p, error, None);
            && p'.result == Some(Err(ConnectionRejected(c.pending.value, ReadinessFailed(error))))
            && c'.pending.None? && c'.out.wire == c.out.wire && c'.policy.schedule.None?
  {
  }

  // ---- Pair and Reconnect: every other action ----

  /** The reason of a disconnect of the current session, if that is what the action handles. */
  function Disconnect(w: World, a: Action): Option<Option<Byte>> {
    if a.Event? && w.phase.Handling? && w.phase.events != [] && w.phase.events[0].Some?
       && IsCurrent(w.core, w.phase.events[0].value) && w.phase.events[0].value.event.LinkDisconnected?
    then Some(w.phase.events[0].value.event.reason)
    else None
  }

  /** The result an action gives to the pending connection command, if it ends it. */
  ghost function ConnectionAnswer(w: World, a: Action, e: Record): Option<CommandResult>
    requires w.core.pending.Some?
  {
    var kind := w.core.pending.value;
    match a
    case DriveConnection(now, _) => DriveAnswer(w.core, e, now)
    case Event(_, _) =>
      (match Disconnect(w, a)
       case Some(reason) => Some(Err(ConnectionRejected(kind, ReadinessFailed(ConnectionLost(reason)))))
       case None => None)
    case Shutdown(_, _, _) => Some(Err(ShutdownInterrupted))
    case Fail =>
      Some(Err(ConnectionRejected(kind, if w.fault == Some(TransportFailed(InvalidKeyStore)) then KeyStoreInvalid
                                        else WorkerHasFailed)))
    case _ => None
  }

  lemma EventAnswersConnection(c: Core, p: Progress, event: SessionEvent, now: Duration, outcome: SendOutcome)
    requires Live(c) && c.pending.Some?
    ensures var o := HandleEvent(c, p, event, now, outcome);
            if IsCurrent(c, event) && event.event.LinkDisconnected? then
              && o.progress.result
                 == Some(Err(ConnectionRejected(c.pending.value, ReadinessFailed(ConnectionLost(event.event.reason)))))
              && o.core.pending.None?
            else o.progress.result == p.result && o.core.pending == c.pending
  {
    hide ReplyToOutput;
    if IsCurrent(c, event) && event.event.HidOutput? {
      RepliesKeepPending(c, event.event.payload, outcome);
    }
  }

  lemma RepliesKeepPending(c: Core, raw: seq<Byte>, outcome: SendOutcome)
    ensures var c' := ReplyToOutput(c, raw, outcome).0; c'.pending == c.pending && c'.tap == c.tap
  {
  }

  lemma EndingAnswersConnection(c: Core, p: Progress, request: ShutdownRequest, e: WorkerCoreError, now: Duration,
                                answers: Cleanup.CleanupAnswers)
    requires c.pending.Some?
    ensures var (closed, p') := CloseWorker(c, p, request, now, answers);
            p'.result == Some(Err(ShutdownInterrupted)) && closed.pending.None?
    ensures var (failed, p') := FailWorker(c, p, e);
            && p'.result == Some(Err(ConnectionRejected(c.pending.value, if e == TransportFailed(InvalidKeyStore)
                                                                         then KeyStoreInvalid else WorkerHasFailed)))
            && failed.pending.None?
    ensures CleanUpAfterFailure(c, now, answers).pending == c.pending && Abandon(c).pending == c.pending
  {
    hide Cleanup.RunCleanup;
  }

  lemma EndingAnswers(w: World, a: Action, e: Record)
    requires WorldInv(w) && Enabled(w, a) && Ending(a) && w.core.pending.Some?
    ensures Perform(w, a).progress.result == ConnectionAnswer(w, a, e)
    ensures Perform(w, a).core.pending.None? <==> ConnectionAnswer(w, a, e).Some?
  {
    hide CloseWorker, FailWorker, CleanUpAfterFailure, Abandon, Live;
    match a
    case Shutdown(request, now, answers) =>
      EndingAnswersConnection(w.core, w.progress, request, InvalidLifecycle, now, answers);
    case CleanUpFailed(now, answers) =>
      EndingAnswersConnection(w.core, w.progress, DroppedShutdown, InvalidLifecycle, now, answers);
    case Fail =>
      EndingAnswersConnection(w.core, w.progress, DroppedShutdown, w.fault.value, w.time,
                              Cleanup.CleanupAnswers(Accepted, None, None, None));
    case WaitFails =>
      EndingAnswersConnection(w.core, w.progress, DroppedShutdown, InvalidLifecycle, w.time,
                              Cleanup.CleanupAnswers(Accepted, None, None, None));
  }

  lemma WorkAnswers(w: World, a: Action, e: Record)
    requires WorldInv(w) && Enabled(w, a) && !Ending(a) && w.core.pending.Some?
    requires Backed(w.core, e)
    ensures Perform(w, a).progress.result == ConnectionAnswer(w, a, RecordAction(e, w, a))
    ensures Perform(w, a).core.pending.None? <==> ConnectionAnswer(w, a, RecordAction(e, w, a)).Some?
  {
    hide HandleEvent, Drive, RunDue, Live, Backed, DriveAnswer, RecordEvent, RecordDrive;
    match a
    case Event(now, outcome) =>
      if w.phase.events[0].Some? {
        EventAnswersConnection(w.core, w.progress, w.phase.events[0].value, now, outcome);
      }
    case DriveConnection(now, outcome) => DrivingAnswers(w.core, w.progress, now, outcome, e);
    case Due(now, capacity, outcome) => DueKeepsPending(w.core, w.progress, now, capacity, outcome);
    case _ =>
  }

  lemma DueKeepsPending(c: Core, p: Progress, now: Duration, capacity: bool, outcome: SendOutcome)
    requires Live(c) && c.pending.Some?
    ensures var o := RunDue(c, p, now, capacity, outcome); o.core.pending == c.pending && o.progress.result == p.result
  {
    hide SendAutomatic;
    DueAnswers(c, p, now, capacity, outcome);
    SendingKeepsPending(c, now, capacity, outcome);
  }

  lemma SendingKeepsPending(c: Core, now: Duration, capacity: bool, outcome: SendOutcome)
    ensures SendAutomatic(c, now, capacity, outcome).0.pending == c.pending
  {
  }

  /** In every run of a new worker, at every action while a Pair or Reconnect is pending: it ends exactly when the table
      says so, with exactly that result. */
  lemma EveryConnectionCommandIsAnswered(r: Run, i: nat)
    requires FreshRun(r) && i < |r.actions| && r.worlds[i].core.pending.Some?
    ensures r.worlds[i + 1].progress.result == ConnectionAnswer(r.worlds[i], r.actions[i], RecordOf(r, i + 1))
    ensures r.worlds[i + 1].core.pending.None? <==> r.worlds[i + 1].progress.result.Some?
  {
    hide WorldInv, Enabled, Perform, ConnectionAnswer, RecordAction, Backed;
    var w, a := r.worlds[i], r.actions[i];
    assert Leads(w, a, r.worlds[i + 1]);
    FreshRunKeepsWorldInv(r, i);
    if Ending(a) {
      EndingAnswers(w, a, RecordOf(r, i + 1));
    } else {
      Endings.EnabledIsOpen(w, a);
      RunIsBacked(r, i);
      WorkAnswers(w, a, RecordOf(r, i));
    }
  }

  function Started(kind: ConnectionCommandKind, error: CallResult): PortCall {
    if kind.ReconnectCommand? then StartedReconnect(error) else StartedPairing(error)
  }

  /** A command that does not become pending fails at once: with the error of the transport, which is asked first, or with
      the lifecycle's if the worker is not open. */
  lemma EveryConnectionCommandBegins(r: Run, i: nat)
    requires FreshRun(r) && i < |r.actions| && r.actions[i].Connect?
    ensures var w, a, w' := r.worlds[i], r.actions[i], r.worlds[i + 1];
            match a.error
            case Some(kind) =>
              && w'.progress.result == Some(Err(ConnectionRejected(a.kind, BeginFailed(TransportFailed(kind)))))
              && w'.core == WithCall(w.core, Started(a.kind, a.error))
            case None =>
              if w.core.lifecycle.Open? then
                && w'.progress.result.None? && w'.core.pending == Some(a.kind) && w'.core.lifecycle.Connecting?
                && w'.core.out.wire == w.core.out.wire + [Started(a.kind, a.error)]
                && RecordOf(r, i + 1) == NOTHING.(deadline := DeadlineAfter(a.now, a.timeout))
              else
                && w'.progress.result == Some(Err(ConnectionRejected(a.kind, BeginFailed(InvalidLifecycle))))
                && w'.core == WithCall(w.core, Started(a.kind, a.error))
  {
    hide WorldInv, Perform, Enabled;
    assert Leads(r.worlds[i], r.actions[i], r.worlds[i + 1]);
    FreshRunKeepsWorldInv(r, i);
    ConnectingAnswers(r.worlds[i], r.actions[i]);
  }

  lemma ConnectingAnswers(w: World, a: Action)
    requires WorldInv(w) && Enabled(w, a) && a.Connect?
    ensures var w' := Perform(w, a);
            match a.error
            case Some(kind) =>
              && w'.progress.result == Some(Err(ConnectionRejected(a.kind, BeginFailed(TransportFailed(kind)))))
              && w'.core == WithCall(w.core, Started(a.kind, a.error))
            case None =>
              if w.core.lifecycle.Open?
              then w'.progress.result.None? && w'.core.pending == Some(a.kind) && w'.core.lifecycle.Connecting?
                   && w'.core.out.wire == w.core.out.wire + [Started(a.kind, a.error)]
              else
                && w'.progress.result == Some(Err(ConnectionRejected(a.kind, BeginFailed(InvalidLifecycle))))
                && w'.core == WithCall(w.core, Started(a.kind, a.error))
  {
    hide Live;
  }

  // ---- Taps ----

  /** The result of a tap: its first error if it had one, the error of its release, or success; or how it was
      interrupted. */
  function TapAnswer(w: World, a: Action): Option<CommandResult>
    requires w.core.tap.Some?
  {
    var periodic, first := w.core.mode.Periodic?, w.core.tap.value.firstError;
    match a
    case Due(now, _, outcome) =>
      if now < w.core.tap.value.releaseAt then None
      else if periodic && first.Some? then Some(Err(PeriodicRejected(PeriodicTransport(first.value, None))))
      else if outcome.Accepted? then Some(Ok(()))
      else if periodic then Some(Err(PeriodicRejected(PeriodicTransport(outcome.kind, None))))
      else Some(Err(DirectRejected(DirectTransport(outcome.kind))))
    case Event(_, _) =>
      (match Disconnect(w, a)
       case None => None
       case Some(reason) =>
         Some(Err(if periodic then DisconnectInterrupted else DirectRejected(Interrupted(TapDisconnected(reason))))))
    case _ => None
  }

  lemma EventAnswersTap(c: Core, p: Progress, event: SessionEvent, now: Duration, outcome: SendOutcome)
    requires Live(c) && c.tap.Some?
    ensures var o := HandleEvent(c, p, event, now, outcome);
            if IsCurrent(c, event) && event.event.LinkDisconnected? then
              && o.core.tap.None?
              && o.progress.result
                 == Some(Err(if c.mode.Periodic? then DisconnectInterrupted
                             else DirectRejected(Interrupted(TapDisconnected(event.event.reason)))))
            else o.progress.result == p.result && o.core.tap == c.tap
  {
    hide ReplyToOutput;
    if IsCurrent(c, event) && event.event.HidOutput? {
      RepliesKeepPending(c, event.event.payload, outcome);
    }
  }

  lemma DueAnswersTap(w: World, a: Action)
    requires WorldInv(w) && Enabled(w, a) && a.Due? && w.core.tap.Some?
    ensures var o := RunDue(w.core, w.progress, a.now, a.capacity, a.outcome);
            && o.progress.result == TapAnswer(w, a) && (o.core.tap.None? <==> TapAnswer(w, a).Some?)
            && (TapDue(w.core, a.now) ==>
                  o.fault == if a.outcome.Refused? && a.outcome.kind != SendRejected
                             then Some(TransportFailed(a.outcome.kind)) else None)
  {
  }

  /** In every run of a new worker, at every action while a tap is pending: it ends exactly when its release is due or its
      session is disconnected, with exactly the result of the table, or without one at a shutdown, which gives it an answer
      of its own, and at the cleanup of a failed worker. */
  lemma EveryTapIsAnswered(r: Run, i: nat)
    requires FreshRun(r) && i < |r.actions| && r.worlds[i].core.tap.Some?
    ensures var w, a, w' := r.worlds[i], r.actions[i], r.worlds[i + 1];
            && w'.progress.result == TapAnswer(w, a)
            && (w'.core.tap.None? <==> TapAnswer(w, a).Some? || a.Shutdown? || a.CleanUpFailed?)
            && (a.Shutdown? ==>
                  w'.interrupted == Some(if w.core.mode.Periodic? then ShutdownInterrupted
                                         else DirectRejected(Interrupted(TapShutdown))))
  {
    hide WorldInv, Enabled, Perform, TapAnswer;
    assert Leads(r.worlds[i], r.actions[i], r.worlds[i + 1]);
    FreshRunKeepsWorldInv(r, i);
    if Ending(r.actions[i]) {
      EndingAnswersTap(r.worlds[i], r.actions[i]);
    } else {
      WorkAnswersTap(r.worlds[i], r.actions[i]);
    }
  }

  lemma EndingAnswersTap(w: World, a: Action)
    requires WorldInv(w) && Enabled(w, a) && Ending(a) && w.core.tap.Some?
    ensures var w' := Perform(w, a);
            && w'.progress.result == TapAnswer(w, a)
            && (w'.core.tap.None? <==> TapAnswer(w, a).Some? || a.Shutdown? || a.CleanUpFailed?)
            && (a.Shutdown? ==>
                  w'.interrupted == Some(if w.core.mode.Periodic? then ShutdownInterrupted
                                         else DirectRejected(Interrupted(TapShutdown))))
  {
    hide Cleanup.RunCleanup, Live;
    TapExcludesCommand(w);
  }

  lemma TapExcludesCommand(w: World)
    requires WorldInv(w) && w.core.tap.Some?
    ensures Alive(w.phase) ==> w.core.pending.None?
    ensures w.progress.result.None?
  {
  }

  lemma WorkAnswersTap(w: World, a: Action)
    requires WorldInv(w) && Enabled(w, a) && !Ending(a) && w.core.tap.Some?
    ensures var w' := Perform(w, a);
            w'.progress.result == TapAnswer(w, a) && (w'.core.tap.None? <==> TapAnswer(w, a).Some?)
  {
    hide HandleEvent, Drive, RunDue, Live;
    match a
    case Event(now, outcome) =>
      if w.phase.events[0].Some? {
        EventAnswersTap(w.core, w.progress, w.phase.events[0].value, now, outcome);
      }
    case DriveConnection(now, outcome) => TapRuns.DrivesKeepPressedInput(w.core, w.progress, now, outcome);
    case Due(_, _, _) => DueAnswersTap(w, a);
    case _ =>
  }
}
