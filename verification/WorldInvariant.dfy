/** What holds throughout every run of the worker. */
module WorldInvariant {
  import opened Types
  import opened Cleanup
  import opened Command
  import opened Invariant
  import opened Machine
  import Readiness
  import opened Runs
  import opened Session
  import opened Transport

  predicate Alive(phase: Phase) {
    !phase.Broken? && !phase.Abandoned? && !phase.ClosedDown? && !phase.CleanedUp?
  }

  /** The phases of a step after its command was settled. */
  predicate Settled(phase: Phase) {
    phase.Polling? || phase.Handling? || phase.Topology? || AfterPolling(phase)
  }

  predicate AfterPolling(phase: Phase) {
    phase.LastDrive? || phase.DueCheck? || phase.Finishing? || phase.Delivering?
  }

  predicate InLimits(w: World) {
    && 0 < w.budget
    && (w.phase.Polling? || w.phase.Handling? || w.phase.Topology? ==> w.phase.batch < w.budget)
  }

  /** No result is recorded while a command is pending, so a step never completes two. */
  predicate OneResult(w: World) {
    && (w.core.HasPending() ==> w.progress.result.None?)
    && (w.phase.Started? ==> w.progress == FRESH && !w.slotEmpty)
    && (w.phase.Commanded? ==> w.progress.commands <= 1 && (w.slotEmpty <==> w.progress.commands == 0))
    && (w.phase.Commanded? && w.slotEmpty ==> w.progress == FRESH)
  }

  /** A settled step that does not ask to run again at once has nothing left to look at. */
  predicate NothingOverlooked(w: World) {
    && (Settled(w.phase) ==> (w.progress.result.Some? ==> w.progress.immediate))
    && (Settled(w.phase) ==> (!w.core.HasPending() && !w.progress.immediate ==> w.slotEmpty))
    && (w.phase.Handling? || w.phase.Topology? ==> !w.drained)
    && (AfterPolling(w.phase) ==> (!w.progress.immediate ==> w.drained))
  }

  /** A response is in flight exactly while a command is pending or its result is not delivered; a closed tap's
      answer is never a second one. */
  predicate OneResponse(w: World) {
    && (Alive(w.phase) || w.phase.Broken? || w.phase.Abandoned? ==>
          (w.channel.inFlight <==> w.core.HasPending() || w.progress.result.Some?))
    && (w.phase.ClosedDown? ==> (w.channel.inFlight <==> w.progress.result.Some? || w.interrupted.Some?))
    && (w.phase.ClosedDown? && w.interrupted.Some? ==> w.progress.result.None?)
    && (w.phase.Idle? || w.phase.Abandoned? ==> w.progress.result.None?)
  }

  /** After its last drive a step holds no overdue connection, and when it ends no overdue tap. */
  predicate OnTime(w: World) {
    && (w.phase.DueCheck? || w.phase.Finishing? || w.phase.Delivering? ==>
          (w.core.connection.Some? ==> w.driven < w.core.connection.value.gate.deadline))
    && (w.phase.Finishing? || w.phase.Delivering? ==> !TapDue(w.core, w.time))
  }

  ghost predicate WorldInv(w: World) {
    && InLimits(w)
    && (Alive(w.phase) ==> Live(w.core))
    && (Alive(w.phase) && !w.phase.Stopping? ==> w.fault.None?)
    && (w.phase.Stopping? || w.phase.Broken? ==> w.fault.Some?)
    && OneResult(w)
    && NothingOverlooked(w)
    && OneResponse(w)
    && OnTime(w)
    && (w.phase.Broken? ==> w.core.out.status.failure.Some?)
  }

  /** How an action after the settled command treats what is pending: it is answered once, and at once. */
  predicate Answers(c: Core, p: Progress, o: Outcome) {
    && (o.core.HasPending() ==> c.HasPending() && o.progress.result == p.result)
    && (c.HasPending() && !o.core.HasPending() ==> o.progress.result.Some? && o.progress.immediate)
    && (!c.HasPending() ==> o.progress.result == p.result)
    && (p.immediate ==> o.progress.immediate)
  }

  lemma LosingAnswers(c: Core, p: Progress, error: Readiness.ReadinessError, reason: Option<Byte>)
    requires c.tap.None?
    ensures var (c', p') := LoseConnection(c, p, error, reason); Answers(c, p, Outcome(c', p', None))
  {
  }

  lemma DisconnectAnswers(c: Core, p: Progress, reason: Option<Byte>)
    requires Live(c)
    ensures var (c', p') := DisconnectEvent(c, p, reason); Answers(c, p, Outcome(c', p', None))
  {
  }

  lemma OutputAnswers(c: Core, p: Progress, raw: seq<Byte>, now: Duration, outcome: SendOutcome)
    ensures Answers(c, p, OutputEvent(c, p, raw, now, outcome))
  {
  }

  lemma EventAnswers(c: Core, p: Progress, event: SessionEvent, now: Duration, outcome: SendOutcome)
    requires Live(c)
    ensures Answers(c, p, HandleEvent(c, p, event, now, outcome))
  {
    if IsCurrent(c, event) {
      match event.event
      case LinkDisconnected(reason) => DisconnectAnswers(c, p, reason);
      case HidOutput(raw) => OutputAnswers(c, p, raw, now, outcome);
      case _ =>
    }
  }

  lemma SettlingAnswers(c: Core, p: Progress, now: Duration)
    requires c.connection.Some? && c.tap.None?
    ensures Answers(c, p, SettleReadiness(c, p, now))
  {
  }

  lemma HandshakeAnswers(c: Core, p: Progress, now: Duration, outcome: SendOutcome)
    requires c.connection.Some?
    ensures var o := DriveHandshake(c, p, now, outcome);
            && Answers(c, p, o) && o.progress.result == p.result && o.progress.immediate == p.immediate
            && o.core.pending == c.pending && o.core.tap == c.tap && o.core.connection.Some?
  {
  }

  lemma DriveAnswers(c: Core, p: Progress, now: Duration, outcome: SendOutcome)
    requires Live(c)
    ensures Answers(c, p, Drive(c, p, now, outcome))
  {
    if c.connection.Some? {
      match Readiness.InactiveError(c.connection.value.gate, now, c.sessions)
      case Some(error) => LosingAnswers(c, p, error, None);
      case None =>
        HandshakeAnswers(c, p, now, outcome);
        var o := DriveHandshake(c, p, now, outcome);
        if o.fault.None? {
          SettlingAnswers(o.core, o.progress, now);
        }
    }
  }

  lemma EvaluationIsOnTime(c: Core, p: Progress, now: Duration)
    requires c.connection.Some?
    ensures var o := SettleReadiness(c, p, now);
            o.core.connection.Some? && o.fault.None? ==> now < o.core.connection.value.gate.deadline
  {
  }

  lemma DriveIsOnTime(c: Core, p: Progress, now: Duration, outcome: SendOutcome)
    requires Live(c)
    ensures var o := Drive(c, p, now, outcome);
            o.core.connection.Some? && o.fault.None? ==> now < o.core.connection.value.gate.deadline
  {
    hide SettleReadiness, DriveHandshake;
    if c.connection.Some? && Readiness.InactiveError(c.connection.value.gate, now, c.sessions).None? {
      HandshakeAnswers(c, p, now, outcome);
      var o := DriveHandshake(c, p, now, outcome);
      EvaluationIsOnTime(o.core, o.progress, now);
    }
  }

  lemma DueLeavesNothingOverdue(c: Core, p: Progress, now: Duration, capacity: bool, outcome: SendOutcome)
    ensures var c' := RunDue(c, p, now, capacity, outcome).core;
            c'.connection == c.connection && !TapDue(c', now)
  {
  }

  lemma IdleWorkerHasNoTap(c: Core)
    requires Live(c) && !DueAllowed(c)
    ensures c.tap.None?
  {
  }

  lemma DueAnswers(c: Core, p: Progress, now: Duration, capacity: bool, outcome: SendOutcome)
    requires Live(c)
    ensures Answers(c, p, RunDue(c, p, now, capacity, outcome))
  {
  }

  lemma ConnectReports(c: Core, p: Progress, kind: ConnectionCommandKind, timeout: Duration, error: CallResult,
                       now: Duration)
    requires !c.HasPending() && p == FRESH
    ensures var o := ConnectCommand(c, p, kind, timeout, error, now);
            o.progress.commands == 1 && (o.core.HasPending() <==> o.progress.result.None?)
  {
  }

  lemma InputReports(c: Core, p: Progress, command: InputCommand, now: Duration, outcome: SendOutcome)
    requires !c.HasPending() && p == FRESH
    ensures var o := InputStep(c, p, command, now, outcome);
            o.progress.commands == 1 && (o.core.HasPending() <==> o.progress.result.None?)
  {
  }

  // ---- Every action keeps the invariant ----

  lemma ConnectKeepsWorldInv(w: World, kind: ConnectionCommandKind, timeout: Duration, error: CallResult, now: Duration)
    requires WorldInv(w) && Enabled(w, Connect(kind, timeout, error, now))
    ensures WorldInv(Perform(w, Connect(kind, timeout, error, now)))
  {
    hide ConnectCommand, Live;
    ConnectPreservesLive(w.core, w.progress, kind, timeout, error, now);
    ConnectReports(w.core, w.progress, kind, timeout, error, now);
  }

  lemma InputKeepsWorldInv(w: World, command: InputCommand, now: Duration, outcome: SendOutcome)
    requires WorldInv(w) && Enabled(w, Input(command, now, outcome))
    ensures WorldInv(Perform(w, Input(command, now, outcome)))
  {
    hide InputStep, Live;
    InputPreservesLive(w.core, w.progress, command, now, outcome);
    InputReports(w.core, w.progress, command, now, outcome);
  }

  lemma EventKeepsWorldInv(w: World, now: Duration, outcome: SendOutcome)
    requires WorldInv(w) && Enabled(w, Event(now, outcome))
    ensures WorldInv(Perform(w, Event(now, outcome)))
  {
    hide HandleEvent, Live;
    if w.phase.events[0].Some? {
      EventPreservesLive(w.core, w.progress, w.phase.events[0].value, now, outcome);
      EventAnswers(w.core, w.progress, w.phase.events[0].value, now, outcome);
    }
  }

  lemma DriveKeepsWorldInv(w: World, now: Duration, outcome: SendOutcome)
    requires WorldInv(w) && Enabled(w, DriveConnection(now, outcome))
    ensures WorldInv(Perform(w, DriveConnection(now, outcome)))
  {
    hide Drive, Live;
    DrivePreservesLive(w.core, w.progress, now, outcome);
    DriveAnswers(w.core, w.progress, now, outcome);
    DriveIsOnTime(w.core, w.progress, now, outcome);
  }

  lemma DueKeepsWorldInv(w: World, now: Duration, capacity: bool, outcome: SendOutcome)
    requires WorldInv(w) && Enabled(w, Due(now, capacity, outcome))
    ensures WorldInv(Perform(w, Due(now, capacity, outcome)))
  {
    hide RunDue, Live;
    DuePreservesLive(w.core, w.progress, now, capacity, outcome);
    DueAnswers(w.core, w.progress, now, capacity, outcome);
    DueLeavesNothingOverdue(w.core, w.progress, now, capacity, outcome);
  }

  /** Closing answers a pending connection command, and leaves nothing pending. */
  lemma ClosingReports(c: Core, p: Progress, request: ShutdownRequest, now: Duration, answers: CleanupAnswers)
    ensures var (c', p') := CloseWorker(c, p, request, now, answers);
            && !c'.HasPending()
            && (p'.result.Some? <==> c.pending.Some? || p.result.Some?)
  {
  }

  /** Failing answers a pending connection command; a pending tap stays unanswered. */
  lemma FailingReports(c: Core, p: Progress, e: WorkerCoreError)
    ensures var (c', p') := FailWorker(c, p, e);
            && c'.pending.None? && c'.tap == c.tap && c'.out.status.failure.Some?
            && (p'.result.Some? <==> c.pending.Some? || p.result.Some?)
  {
  }

  lemma LiveCommandsExclude(c: Core)
    requires Live(c)
    ensures c.pending.None? || c.tap.None?
  {
  }

  lemma CleaningUpDropsCommands(c: Core, now: Duration, answers: CleanupAnswers)
    ensures CleanUpAfterFailure(c, now, answers).pending == c.pending
    ensures CleanUpAfterFailure(c, now, answers).tap.None?
  {
  }

  lemma ShutdownKeepsWorldInv(w: World, a: Action)
    requires WorldInv(w) && Enabled(w, a) && a.Shutdown?
    ensures WorldInv(Perform(w, a))
  {
    hide CloseWorker, Live;
    LiveCommandsExclude(w.core);
    ClosingReports(w.core, w.progress, a.request, a.now, a.answers);
  }

  lemma FailKeepsWorldInv(w: World, a: Action)
    requires WorldInv(w) && Enabled(w, a) && a.Fail?
    ensures WorldInv(Perform(w, a))
  {
    hide FailWorker, Live;
    LiveCommandsExclude(w.core);
    FailingReports(w.core, w.progress, w.fault.value);
  }

  lemma CleanUpKeepsWorldInv(w: World, a: Action)
    requires WorldInv(w) && Enabled(w, a) && (a.CleanUpFailed? || a.WaitFails?)
    ensures WorldInv(Perform(w, a))
  {
    hide CleanUpAfterFailure, Live;
    if a.CleanUpFailed? {
      CleaningUpDropsCommands(w.core, a.now, a.answers);
    }
  }

  lemma PollKeepsLive(c: Core, call: PortCall)
    requires Live(c)
    ensures Live(WithCall(c, call))
  {
  }

  lemma PollKeepsWorldInv(w: World, a: Action)
    requires WorldInv(w) && Enabled(w, a) && a.Poll?
    ensures WorldInv(Perform(w, a))
  {
    hide Live, Tag;
    PollKeepsLive(w.core, Polled(a.events));
  }

  /** The invariant of every run. */
  lemma {:induction false} StepKeepsWorldInv(w: World, a: Action)
    requires WorldInv(w) && Enabled(w, a)
    ensures WorldInv(Perform(w, a))
  {
    match a
    case Connect(kind, timeout, error, now) => ConnectKeepsWorldInv(w, kind, timeout, error, now);
    case Input(command, now, outcome) => InputKeepsWorldInv(w, command, now, outcome);
    case Event(now, outcome) => EventKeepsWorldInv(w, now, outcome);
    case DriveConnection(now, outcome) => DriveKeepsWorldInv(w, now, outcome);
    case Due(now, capacity, outcome) => DueKeepsWorldInv(w, now, capacity, outcome);
    case Poll(_) => PollKeepsWorldInv(w, a);
    case Shutdown(_, _, _) => ShutdownKeepsWorldInv(w, a);
    case Fail => FailKeepsWorldInv(w, a);
    case CleanUpFailed(_, _) => CleanUpKeepsWorldInv(w, a);
    case WaitFails => CleanUpKeepsWorldInv(w, a);
    case Finish => FinishKeepsWorldInv(w, a);
    case Deliver => FinishKeepsWorldInv(w, a);
    case _ => QuietKeepsWorldInv(w, a);
  }

  lemma FinishKeepsWorldInv(w: World, a: Action)
    requires WorldInv(w) && Enabled(w, a) && (a.Finish? || a.Deliver?)
    ensures WorldInv(Perform(w, a))
  {
    hide Live;
    if a.Finish? && !DueAllowed(w.core) {
      IdleWorkerHasNoTap(w.core);
    }
  }

  lemma QuietKeepsWorldInv(w: World, a: Action)
    requires WorldInv(w) && Enabled(w, a) && (a.StepBegins? || a.NoCommand? || a.Settle? || a.EndBatch? || a.Wait?)
    ensures WorldInv(Perform(w, a))
  {
    hide Live;
  }

  lemma {:induction false} RunKeepsWorldInv(r: Run, i: nat)
    requires r.Valid() && i < |r.worlds| && WorldInv(r.worlds[0])
    ensures WorldInv(r.worlds[i])
  {
    hide WorldInv, Enabled, Perform;
    if 0 < i {
      RunKeepsWorldInv(r, i - 1);
      assert Leads(r.worlds[i - 1], r.actions[i - 1], r.worlds[i]);
      StepKeepsWorldInv(r.worlds[i - 1], r.actions[i - 1]);
    }
  }

  /** A run from a world that satisfies the invariant to one that does. */
  ghost predicate Sound(t: Run) {
    t.Valid() && WorldInv(t.worlds[0]) && WorldInv(t.Last())
  }

  lemma GoOn(t: Run, a: Action) returns (t': Run)
    requires Sound(t) && Enabled(t.Last(), a)
    ensures Sound(t') && t' == t.Then(a, Perform(t.Last(), a))
  {
    hide WorldInv, Perform, Enabled;
    StepKeepsWorldInv(t.Last(), a);
    t' := t.Then(a, Perform(t.Last(), a));
  }

  // ---- Phases ----

  lemma ActionsMovePhases(w: World, a: Action)
    requires Enabled(w, a)
    ensures var p, p' := w.phase, Perform(w, a).phase;
            && (p'.Commanded? ==> p.Started?)
            && (Settled(p') ==> p.Commanded? || a.Settle? || Settled(p))
  {
    hide ConnectCommand, InputStep, HandleEvent, Drive, RunDue, CloseWorker, FailWorker, CleanUpAfterFailure,
         Abandon, InterruptedTap, SettleCommand, NextDeadline, WithCall, Tag, ChangesTopology, DueAllowed;
  }

  lemma PollingEnds(w: World, a: Action)
    requires Enabled(w, a)
    ensures AfterPolling(Perform(w, a).phase) ==> AfterPolling(w.phase) || a == Poll(Ok([])) || a.EndBatch?
  {
    hide ConnectCommand, InputStep, HandleEvent, Drive, RunDue, CloseWorker, FailWorker, CleanUpAfterFailure,
         Abandon, InterruptedTap, SettleCommand, NextDeadline, WithCall, Tag, ChangesTopology, DueAllowed;
  }

  lemma PhasesComeFromActions(w: World, a: Action)
    requires Enabled(w, a)
    ensures var p, p' := w.phase, Perform(w, a).phase;
            && (p'.DueCheck? ==> a.DriveConnection?) && (p'.Finishing? ==> a.Due?)
            && (p'.Delivering? <==> a.Finish?)
            && (p'.Idle? <==> a.Deliver? || a.Wait?)
            && (p.Idle? ==> a.StepBegins? || a.Wait? || a.WaitFails?)
  {
    hide ConnectCommand, InputStep, HandleEvent, Drive, RunDue, CloseWorker, FailWorker, CleanUpAfterFailure,
         Abandon, InterruptedTap, SettleCommand, NextDeadline, WithCall, Tag, ChangesTopology, DueAllowed;
  }

  // ---- What each action does to a run ----

  /** The world after an action that read the clock at `now` and had this outcome. */
  predicate Landed(w: World, w': World, o: Outcome, now: Duration, phase: Phase) {
    && w'.core == o.core && w'.progress == o.progress && w'.fault == o.fault
    && w'.time == now && w'.budget == w.budget
    && w'.phase == if o.fault.Some? then Stopping else phase
  }

  lemma GoConnect(t: Run, kind: ConnectionCommandKind, timeout: Duration, error: CallResult, now: Duration)
    returns (t': Run)
    requires Sound(t) && t.Last().phase.Started? && !t.Last().core.HasPending() && t.Last().time <= now
    ensures Sound(t') && t'.Extends(t) && t'.Last().checks == t.Last().checks + 1
    ensures t'.Last().channel == t.Last().channel.Take(if kind.PairCommand? then Pair(timeout) else Reconnect(timeout))
    ensures Landed(t.Last(), t'.Last(), ConnectCommand(t.Last().core, t.Last().progress, kind, timeout, error, now),
                   now, Commanded)
  {
    hide ConnectCommand, WorldInv;
    t' := GoOn(t, Connect(kind, timeout, error, now));
  }

  lemma GoInput(t: Run, command: InputCommand, now: Duration, outcome: SendOutcome) returns (t': Run)
    requires Sound(t) && t.Last().phase.Started? && !t.Last().core.HasPending() && t.Last().time <= now
    ensures Sound(t') && t'.Extends(t) && t'.Last().checks == t.Last().checks + 1
    ensures t'.Last().channel == t.Last().channel.Take(InputCommand(command))
    ensures Landed(t.Last(), t'.Last(), InputStep(t.Last().core, t.Last().progress, command, now, outcome),
                   now, Commanded)
  {
    hide InputStep, WorldInv;
    t' := GoOn(t, Input(command, now, outcome));
  }

  lemma GoEvent(t: Run, now: Duration, outcome: SendOutcome) returns (t': Run)
    requires Sound(t) && t.Last().phase.Handling? && t.Last().phase.events != [] && t.Last().time <= now
    ensures Sound(t') && t'.Extends(t) && t'.Last().channel == t.Last().channel
    ensures t'.Last().checks == t.Last().checks + 1
    ensures var w := t.Last();
            var rest := w.phase.events[1..];
            match w.phase.events[0]
            case None => Landed(w, t'.Last(), Outcome(w.core, w.progress, w.fault), now, Handling(w.phase.batch, rest))
            case Some(event) =>
              Landed(w, t'.Last(), HandleEvent(w.core, w.progress, event, now, outcome), now,
                     if ChangesTopology(w.core, event) then Topology(w.phase.batch, rest)
                     else Handling(w.phase.batch, rest))
  {
    hide HandleEvent, Live;
    t' := GoOn(t, Event(now, outcome));
  }

  lemma GoDrive(t: Run, now: Duration, outcome: SendOutcome) returns (t': Run)
    requires Sound(t) && (t.Last().phase.Topology? || t.Last().phase.LastDrive?) && t.Last().time <= now
    ensures Sound(t') && t'.Extends(t) && t'.Last().channel == t.Last().channel
    ensures t'.Last().checks == t.Last().checks + 1
    ensures t' == t.Then(DriveConnection(now, outcome), t'.Last())
    ensures Landed(t.Last(), t'.Last(), Drive(t.Last().core, t.Last().progress, now, outcome), now,
                   if t.Last().phase.Topology? then Handling(t.Last().phase.batch, t.Last().phase.events)
                   else DueCheck)
  {
    hide Drive, WorldInv;
    t' := GoOn(t, DriveConnection(now, outcome));
  }

  lemma GoDue(t: Run, now: Duration, capacity: bool, outcome: SendOutcome) returns (t': Run)
    requires Sound(t) && t.Last().phase.DueCheck? && DueAllowed(t.Last().core) && t.Last().time <= now
    ensures Sound(t') && t'.Extends(t) && t'.Last().channel == t.Last().channel
    ensures t'.Last().checks == t.Last().checks + 1
    ensures Landed(t.Last(), t'.Last(), RunDue(t.Last().core, t.Last().progress, now, capacity, outcome), now, Finishing)
  {
    hide RunDue, DueAllowed, WorldInv;
    t' := GoOn(t, Due(now, capacity, outcome));
  }

  lemma GoPoll(t: Run, events: Result<seq<TransportEvent>, TransportErrorKind>) returns (t': Run)
    requires Sound(t) && t.Last().phase.Polling? && t.Last().fault.None?
    ensures Sound(t') && t'.Extends(t) && t'.Last().channel == t.Last().channel
    ensures t'.Last().checks == t.Last().checks + if events.Err? then 1 else 0
    ensures t' == t.Then(Poll(events), t'.Last())
    ensures var w := t.Last();
            var polled := WithCall(w.core, Polled(events));
            match events
            case Err(kind) =>
              Landed(w, t'.Last(), Outcome(polled, w.progress, Some(TransportFailed(kind))), w.time, Stopping)
            case Ok(batch) =>
              Landed(w, t'.Last(), Outcome(polled, w.progress, None), w.time,
                     if batch == [] then LastDrive else Handling(w.phase.batch, Tag(w.core, batch)))
  {
    hide Live;
    t' := GoOn(t, Poll(events));
  }

  lemma GoShutdown(t: Run, request: ShutdownRequest, now: Duration, answers: CleanupAnswers) returns (t': Run)
    requires Sound(t) && InStep(t.Last().phase) && t.Last().time <= now
    ensures Sound(t') && t' == t.Then(Shutdown(request, now, answers), t'.Last())
    ensures var (c, p) := CloseWorker(t.Last().core, t.Last().progress, request, now, answers);
            var w := t'.Last();
            && w.core == c && w.progress == p && w.time == now && w.phase.ClosedDown?
            && w.budget == t.Last().budget && w.channel == t.Last().channel && w.checks == t.Last().checks
            && w.interrupted == InterruptedTap(t.Last().core)
  {
    hide CloseWorker, WorldInv;
    t' := GoOn(t, Shutdown(request, now, answers));
  }

  lemma GoFail(t: Run) returns (t': Run)
    requires Sound(t) && t.Last().phase.Stopping?
    ensures Sound(t') && t' == t.Then(Fail, t'.Last()) && t.Last().fault.Some?
    ensures var (c, p) := FailWorker(t.Last().core, t.Last().progress, t.Last().fault.value);
            var w := t'.Last();
            && w.core == c && w.progress == p && w.time == t.Last().time && w.phase.Broken?
            && w.budget == t.Last().budget && w.channel == t.Last().channel && w.checks == t.Last().checks
            && w.fault == t.Last().fault
  {
    hide FailWorker, Live;
    t' := GoOn(t, Fail);
  }

  lemma GoQuietly(t: Run, a: Action) returns (t': Run)
    requires Sound(t) && Enabled(t.Last(), a)
    requires a.StepBegins? || a.NoCommand? || a.Settle? || a.EndBatch? || a.Finish? || a.Deliver?
    ensures Sound(t') && t' == t.Then(a, Quietly(t.Last(), a))
  {
    hide WorldInv, PerformEndBatch, SettleCommand, NextDeadline, DueAllowed;
    t' := GoOn(t, a);
  }

  lemma GoWait(t: Run, now: Duration) returns (t': Run)
    requires Sound(t) && t.Last().phase.Idle? && t.Last().time <= now
    ensures Sound(t') && t' == t.Then(Wait(now), t.Last().(time := now))
  {
    hide WorldInv;
    t' := GoOn(t, Wait(now));
  }

  lemma GoAbandon(t: Run) returns (t': Run)
    requires Sound(t) && t.Last().phase.Idle?
    ensures Sound(t') && t' == t.Then(WaitFails, t.Last().(core := Abandon(t.Last().core), phase := Abandoned))
  {
    hide WorldInv, Abandon;
    t' := GoOn(t, WaitFails);
  }

  lemma GoCleanUp(t: Run, now: Duration, answers: CleanupAnswers) returns (t': Run)
    requires Sound(t) && (t.Last().phase.Broken? || t.Last().phase.Abandoned?) && t.Last().time <= now
    ensures Sound(t')
    ensures t' == t.Then(CleanUpFailed(now, answers),
                         t.Last().(core := CleanUpAfterFailure(t.Last().core, now, answers), phase := CleanedUp, time := now))
  {
    hide WorldInv, CleanUpAfterFailure;
    t' := GoOn(t, CleanUpFailed(now, answers));
  }
}
