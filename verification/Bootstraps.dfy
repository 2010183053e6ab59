/** The bootstrap attempts of a session over whole runs: their grid, their number and their end. */
module Bootstraps {
  import opened Types
  import opened Cadence
  import opened Clock
  import opened Command
  import opened Effects
  import opened Evidence
  import opened Handshakes
  import opened Invariant
  import opened Machine
  import opened Readiness
  import opened Runs
  import opened Scheduler
  import opened Sender
  import opened Session
  import opened Transport
  import opened Wire
  import opened WorldInvariant

  /** When the current session tried a bootstrap, and the deadline of its operation. */
  datatype Trials = Trials(deadline: Duration, times: seq<Duration>)

  ghost function RecordTrial(b: Trials, w: World, a: Action): Trials {
    match a
    case Connect(_, timeout, error, now) => if Begins(w.core, error) then Trials(DeadlineAfter(now, timeout), []) else b
    case DriveConnection(now, _) =>
      if Perform(w, a).core.out.wire == w.core.out.wire then b else b.(times := b.times + [now])
    case _ => b
  }

  ghost function TrialsOf(r: Run, i: nat): Trials
    requires i <= |r.actions| <= |r.worlds|
  {
    if i == 0 then Trials(0, []) else RecordTrial(TrialsOf(r, i - 1), r.worlds[i - 1], r.actions[i - 1])
  }

  /** Trials stay on the grid of the first one: at most one in each second, all before the deadline. */
  predicate Spaced(b: Trials, time: Duration) {
    && (forall k :: 0 <= k < |b.times| ==> b.times[0] <= b.times[k] <= time && b.times[k] < b.deadline)
    && (b.times != [] ==> |b.times| <= 1 + (b.times[|b.times| - 1] - b.times[0]) / BOOTSTRAP_RETRY)
  }

  /** The next due point is the grid point after the last trial. */
  predicate OnGrid(h: Shake, times: seq<Duration>) {
    && (h.retry.Some? ==>
          && times != [] && h.retry.value.period == BOOTSTRAP_RETRY
          && times[0] <= times[|times| - 1]
          && h.retry.value.next
             == times[0] + ((times[|times| - 1] - times[0]) / BOOTSTRAP_RETRY + 1) * BOOTSTRAP_RETRY)
    && (h.retry.None? && !h.stopped ==> times == [])
  }

  predicate Tried(c: Core, b: Trials, time: Duration) {
    && Spaced(b, time)
    && (c.connection.Some? ==> c.connection.value.gate.deadline == b.deadline)
    && (c.connection.Some? && c.connection.value.handshake.Some? ==> OnGrid(c.connection.value.handshake.value, b.times))
  }

  lemma FirstTrialIsOnGrid(now: Duration)
    ensures now + BOOTSTRAP_RETRY == now + ((now - now) / BOOTSTRAP_RETRY + 1) * BOOTSTRAP_RETRY
  {
  }

  /** A due retry moves to the grid point after `now`, and its trial falls into a later second than the last one. */
  lemma RetryStaysOnGrid(s: Schedule, first: Duration, last: Duration, now: Duration)
    requires s.period == BOOTSTRAP_RETRY && first <= last
    requires s.next == first + ((last - first) / BOOTSTRAP_RETRY + 1) * BOOTSTRAP_RETRY
    requires Tick(s, now).Ok? && Tick(s, now).value.1.Due?
    ensures first <= now && (last - first) / BOOTSTRAP_RETRY + 1 <= (now - first) / BOOTSTRAP_RETRY
    ensures Tick(s, now).value.0.next == first + ((now - first) / BOOTSTRAP_RETRY + 1) * BOOTSTRAP_RETRY
  {
  }

  /** The trial times after one handshake step. */
  function After(times: seq<Duration>, o: Outbound, o': Outbound, now: Duration): seq<Duration> {
    if o'.wire == o.wire then times else times + [now]
  }

  lemma AttemptSends(h: Shake, o: Outbound, now: Duration, observedAny: bool, outcome: SendOutcome)
    ensures var (h', o') := Attempt(h, o, now, observedAny, outcome);
            && o'.wire != o.wire && (h'.retry == h.retry || (h'.retry.None? && h'.stopped))
  {
  }

  lemma StepShakeStaysOnGrid(h: Shake, o: Outbound, id: U64, now: Duration, observedAny: bool, outcome: SendOutcome,
                             times: seq<Duration>)
    requires OnGrid(h, times) && (times != [] ==> times[0] <= times[|times| - 1] <= now)
    ensures var (h', o', r) := StepShake(h, o, id, now, observedAny, outcome);
            && OnGrid(h', After(times, o, o', now))
            && (o'.wire != o.wire && times != [] ==>
                  (times[|times| - 1] - times[0]) / BOOTSTRAP_RETRY + 1 <= (now - times[0]) / BOOTSTRAP_RETRY)
  {
    hide Attempt;
    if h.retry.None? {
      if Start(now, BOOTSTRAP_RETRY).Ok? {
        FirstTrialIsOnGrid(now);
        AttemptSends(h.(retry := Some(Start(now, BOOTSTRAP_RETRY).value)), o, now, observedAny, outcome);
      }
    } else {
      var tick := Tick(h.retry.value, now);
      if tick.Ok? && tick.value.1.Due? {
        RetryStaysOnGrid(h.retry.value, times[0], times[|times| - 1], now);
        AttemptSends(h.(retry := Some(tick.value.0)), o, now, observedAny, outcome);
      }
    }
  }

  /** Completion is justified when it happens, and final. */
  lemma CompletionIsJustifiedAndFinal(h: Shake, o: Outbound, id: U64, now: Duration, observedAny: bool,
                                      outcome: SendOutcome)
    ensures var (h', o', r) := StepShake(h, o, id, now, observedAny, outcome);
            && (h'.stopped && !h.stopped ==>
                  h.TopologyReady() && h'.accepted && h'.retry.None?
                  && Satisfied(h.condition, observedAny, o'.sender.session.ProtocolReady()))
            && (h.stopped ==> h' == h && o' == o)
  {
  }

  // ---- Runs ----

  lemma LaterIsSpaced(b: Trials, time: Duration, now: Duration)
    requires Spaced(b, time) && time <= now
    ensures Spaced(b, now)
  {
  }

  lemma TrialIsSpaced(b: Trials, time: Duration, now: Duration)
    requires Spaced(b, time) && time <= now < b.deadline
    requires b.times != [] ==>
               (b.times[|b.times| - 1] - b.times[0]) / BOOTSTRAP_RETRY + 1 <= (now - b.times[0]) / BOOTSTRAP_RETRY
    ensures Spaced(b.(times := b.times + [now]), now)
  {
  }

  lemma ConnectIsTried(c: Core, p: Progress, kind: ConnectionCommandKind, timeout: Duration, error: CallResult,
                       now: Duration, b: Trials, time: Duration)
    requires Tried(c, b, time) && time <= now
    ensures Tried(ConnectCommand(c, p, kind, timeout, error, now).core,
                  if Begins(c, error) then Trials(DeadlineAfter(now, timeout), []) else b, now)
  {
  }

  /** Events move only the topology flags of a handshake, or end the attempt. */
  lemma EventIsTried(c: Core, p: Progress, event: SessionEvent, now: Duration, outcome: SendOutcome, b: Trials,
                     time: Duration)
    requires Live(c) && Tried(c, b, time) && time <= now
    ensures Tried(HandleEvent(c, p, event, now, outcome).core, b, now)
  {
    hide ReplyToOutput, Spaced;
    LaterIsSpaced(b, time, now);
    if IsCurrent(c, event) && event.event.HidOutput? {
      RepliesKeepPolicy(c, event.event.payload, outcome);
    }
  }

  lemma HandshakeIsTried(c: Core, p: Progress, now: Duration, outcome: SendOutcome, b: Trials, time: Duration)
    requires Live(c) && Tried(c, b, time) && time <= now
    requires c.connection.Some? && now < c.connection.value.gate.deadline
    ensures var c' := DriveHandshake(c, p, now, outcome).core;
            Tried(c', if c'.out.wire == c.out.wire then b else b.(times := b.times + [now]), now)
  {
    hide StepShake, Spaced, OnGrid;
    LaterIsSpaced(b, time, now);
    var a := c.connection.value;
    if a.handshake.Some? {
      TrialsAreOrdered(b, time);
      StepShakeStaysOnGrid(a.handshake.value, c.out, a.sessionId, now, c.observed.ids != iset{}, outcome, b.times);
      if DriveHandshake(c, p, now, outcome).core.out.wire != c.out.wire {
        TrialIsSpaced(b, time, now);
      }
    }
  }

  lemma TrialsAreOrdered(b: Trials, time: Duration)
    requires Spaced(b, time)
    ensures b.times != [] ==> b.times[0] <= b.times[|b.times| - 1] <= time
  {
  }

  lemma SettlingIsTried(c: Core, p: Progress, now: Duration, b: Trials)
    requires c.connection.Some? && Tried(c, b, now)
    ensures Tried(SettleReadiness(c, p, now).core, b, now)
  {
    hide Spaced, OnGrid;
  }

  lemma DriveIsTried(c: Core, p: Progress, now: Duration, outcome: SendOutcome, b: Trials, time: Duration)
    requires Live(c) && Tried(c, b, time) && time <= now
    ensures var c' := Drive(c, p, now, outcome).core;
            Tried(c', if c'.out.wire == c.out.wire then b else b.(times := b.times + [now]), now)
  {
    hide Spaced, OnGrid;
    LaterIsSpaced(b, time, now);
    if c.connection.Some? && InactiveError(c.connection.value.gate, now, c.sessions).None? {
      HandshakeIsTried(c, p, now, outcome, b, time);
      var o := DriveHandshake(c, p, now, outcome);
      if o.fault.None? {
        DriveHandshakePreservesLive(c, p, now, outcome);
        SettlingIsSilent(o.core, o.progress, now);
        SettlingIsTried(o.core, o.progress, now, if o.core.out.wire == c.out.wire then b else b.(times := b.times + [now]));
      }
    }
  }

  lemma SameAttemptIsTried(c: Core, c': Core, b: Trials, time: Duration, now: Duration)
    requires Tried(c, b, time) && time <= now && c'.connection == c.connection
    ensures Tried(c', b, now)
  {
  }

  lemma StepIsTried(w: World, a: Action, b: Trials)
    requires WorldInv(w) && Enabled(w, a) && !Ending(a) && Tried(w.core, b, w.time)
    ensures Tried(Perform(w, a).core, RecordTrial(b, w, a), Perform(w, a).time)
  {
    hide Tried, Live, ConnectCommand, HandleEvent, Drive, InputStep, RunDue;
    if a.Connect? {
      ConnectIsTried(w.core, w.progress, a.kind, a.timeout, a.error, a.now, b, w.time);
    } else if a.Event? && w.phase.events[0].Some? {
      EventIsTried(w.core, w.progress, w.phase.events[0].value, a.now, a.outcome, b, w.time);
    } else if a.DriveConnection? {
      DriveIsTried(w.core, w.progress, a.now, a.outcome, b, w.time);
    } else {
      if a.Input? {
        InputKeepsAttempt(w.core, w.progress, a.command, a.now, a.outcome);
      } else if a.Due? {
        DueKeepsAttempt(w.core, w.progress, a.now, a.capacity, a.outcome);
      }
      SameAttemptIsTried(w.core, Perform(w, a).core, b, w.time, Perform(w, a).time);
    }
  }

  /** In every run of a new worker: however late its steps and sends are, the bootstrap trials of a session number at
      most one and one more for every whole second since the first, none happens at or after the deadline of the
      operation, and the next due point lies on the first trial's grid. */
  lemma {:induction false} TrialsKeepTheSchedule(r: Run, i: nat)
    requires FreshRun(r) && i < |r.worlds| && Alive(r.worlds[i].phase)
    ensures Tried(r.worlds[i].core, TrialsOf(r, i), r.worlds[i].time)
  {
    hide Tried, WorldInv, Enabled, Perform, RecordTrial;
    if i == 0 {
      NewWorldHasNoTrials(r);
    } else {
      var w, a := r.worlds[i - 1], r.actions[i - 1];
      assert Leads(w, a, r.worlds[i]);
      FreshRunKeepsWorldInv(r, i - 1);
      DeadStaysDead(w, a);
      TrialsKeepTheSchedule(r, i - 1);
      StepIsTried(w, a, TrialsOf(r, i - 1));
    }
  }

  lemma NewWorldHasNoTrials(r: Run)
    requires FreshRun(r)
    ensures Tried(r.worlds[0].core, Trials(0, []), r.worlds[0].time)
  {
  }

  // ---- Due bootstraps are tried ----

  ghost predicate Wanted(c: Core, now: Duration) {
    && c.connection.Some? && c.connection.value.handshake.Some? && now < c.connection.value.gate.deadline
    && Trying(c.connection.value.handshake.value, c.connection.value.sessionId, c.observed.ids != iset{},
              c.out.sender.session.ProtocolReady())
    && RetryDue(c.connection.value.handshake.value, now)
  }

  ghost predicate Tries(c: Core, now: Duration) {
    Wanted(c, now) && !RetryOverflows(c.connection.value.handshake.value, now)
  }

  /** What a drive puts on the trace, and how it fails. Before the deadline of the operation a bootstrap that is wanted
      and due is one neutral report, with the next point on the grid; it fails the worker if that point does not fit, and
      if its send meets a terminal error. Otherwise nothing is sent and nothing fails. */
  ghost predicate DrivesBootstrap(c: Core, now: Duration, outcome: SendOutcome, c': Core, fault: Option<WorkerCoreError>) {
    if !Wanted(c, now) then c'.out.wire == c.out.wire && fault.None?
    else
      var h := c.connection.value.handshake.value;
      if RetryOverflows(h, now) then c'.out.wire == c.out.wire && fault == Some(HandshakeFailed(DeadlineOverflow))
      else
        && c'.out.wire == c.out.wire + [Sent(InputReportOf(c.out.sender, NEUTRAL, now), outcome)]
        && fault == (if outcome.Refused? && outcome.kind != SendRejected then Some(TransportFailed(outcome.kind)) else None)
        && (c'.connection.Some? && c'.connection.value.handshake.Some? && !c'.connection.value.handshake.value.stopped ==>
              c'.connection.value.handshake.value.retry == Some(NextRetry(h, now)))
  }

  lemma HandshakeDrives(c: Core, p: Progress, now: Duration, outcome: SendOutcome)
    requires c.connection.Some? && now < c.connection.value.gate.deadline
    ensures var o := DriveHandshake(c, p, now, outcome); DrivesBootstrap(c, now, outcome, o.core, o.fault)
  {
    hide StepShake, Trying, RetryOverflows, NextRetry;
    var a := c.connection.value;
    if a.handshake.Some? {
      DueBootstrapsAreTried(a.handshake.value, c.out, a.sessionId, now, c.observed.ids != iset{}, outcome);
    }
  }

  lemma SettlingKeepsRetry(c: Core, p: Progress, now: Duration)
    requires c.connection.Some?
    ensures var c' := SettleReadiness(c, p, now).core;
            c'.connection.Some? && c'.connection.value.handshake.Some? ==>
              c'.connection.value.handshake == c.connection.value.handshake
  {
  }

  lemma DriveDrivesBootstrap(c: Core, p: Progress, now: Duration, outcome: SendOutcome)
    requires Live(c)
    ensures var o := Drive(c, p, now, outcome); DrivesBootstrap(c, now, outcome, o.core, o.fault)
  {
    hide DriveHandshake, SettleReadiness, LoseConnection, Live, Trying, RetryDue, RetryOverflows, NextRetry;
    if c.connection.Some? {
      ActiveUnlessLate(c, now);
      if InactiveError(c.connection.value.gate, now, c.sessions).None? {
        HandshakeDrives(c, p, now, outcome);
        var o := DriveHandshake(c, p, now, outcome);
        if o.fault.None? {
          DriveHandshakePreservesLive(c, p, now, outcome);
          SettlingIsSilent(o.core, o.progress, now);
          SettlingKeepsRetry(o.core, o.progress, now);
        }
      } else {
        LosingIsSilent(c, p, InactiveError(c.connection.value.gate, now, c.sessions).value);
      }
    }
  }

  lemma LosingIsSilent(c: Core, p: Progress, error: ReadinessError)
    ensures LoseConnection(c, p, error, None).0.out.wire == c.out.wire
  {
  }

  lemma ActiveUnlessLate(c: Core, now: Duration)
    requires Live(c) && c.connection.Some?
    ensures InactiveError(c.connection.value.gate, now, c.sessions).Some? <==> c.connection.value.gate.deadline <= now
  {
  }

  /** Over every run of a new worker, at every drive: a wanted bootstrap is tried when it is due, counted at that time,
      and fails the step if and only if its next point does not fit or its send met a terminal error. */
  lemma EveryDueBootstrapIsTried(r: Run, i: nat)
    requires FreshRun(r) && i < |r.actions| && r.actions[i].DriveConnection?
    ensures var w, a, w' := r.worlds[i], r.actions[i], r.worlds[i + 1];
            && DrivesBootstrap(w.core, a.now, a.outcome, w'.core, w'.fault)
            && TrialsOf(r, i + 1).times == TrialsOf(r, i).times + if Tries(w.core, a.now) then [a.now] else []
  {
    hide DrivesBootstrap, WorldInv, Perform, Tries;
    var w, a, w' := r.worlds[i], r.actions[i], r.worlds[i + 1];
    assert Leads(w, a, w');
    FreshRunKeepsWorldInv(r, i);
    DriveLands(w, a);
    DriveDrivesBootstrap(w.core, w.progress, a.now, a.outcome);
    TriesAreSends(w.core, a.now, a.outcome, w'.core, w'.fault);
  }

  lemma TriesAreSends(c: Core, now: Duration, outcome: SendOutcome, c': Core, fault: Option<WorkerCoreError>)
    requires DrivesBootstrap(c, now, outcome, c', fault)
    ensures c'.out.wire != c.out.wire <==> Tries(c, now)
  {
  }

  lemma DriveLands(w: World, a: Action)
    requires WorldInv(w) && Enabled(w, a) && a.DriveConnection?
    ensures var w', o := Perform(w, a), Drive(w.core, w.progress, a.now, a.outcome);
            w'.core == o.core && w'.fault == o.fault && Live(w.core)
  {
    hide Drive, Live;
  }

  // ---- Completion ----

  /** No attempt is under way that still waits for its handshake. */
  predicate Completed(c: Core) {
    c.connection.Some? && c.connection.value.handshake.Some? ==> c.connection.value.handshake.value.stopped
  }

  lemma DrivesNothingMore(c: Core, p: Progress, now: Duration, outcome: SendOutcome)
    requires Live(c) && Completed(c)
    ensures var c' := Drive(c, p, now, outcome).core;
            Completed(c') && c'.out.wire == c.out.wire
  {
    hide SettleReadiness;
    if c.connection.Some? && InactiveError(c.connection.value.gate, now, c.sessions).None? {
      var o := DriveHandshake(c, p, now, outcome);
      if c.connection.value.handshake.Some? {
        CompletionIsJustifiedAndFinal(c.connection.value.handshake.value, c.out, c.connection.value.sessionId, now,
                                      c.observed.ids != iset{}, outcome);
      }
      if o.fault.None? {
        DriveHandshakePreservesLive(c, p, now, outcome);
        SettlingIsSilent(o.core, o.progress, now);
        SettlingStaysCompleted(o.core, o.progress, now);
      }
    }
  }

  lemma SettlingStaysCompleted(c: Core, p: Progress, now: Duration)
    requires c.connection.Some? && Completed(c)
    ensures Completed(SettleReadiness(c, p, now).core)
  {
  }

  lemma EventStaysCompleted(c: Core, p: Progress, event: SessionEvent, now: Duration, outcome: SendOutcome)
    requires Completed(c)
    ensures Completed(HandleEvent(c, p, event, now, outcome).core)
  {
    hide ReplyToOutput;
    if IsCurrent(c, event) && event.event.HidOutput? {
      RepliesKeepPolicy(c, event.event.payload, outcome);
    }
  }

  lemma ConnectStaysCompleted(c: Core, p: Progress, kind: ConnectionCommandKind, timeout: Duration, error: CallResult,
                              now: Duration)
    requires Completed(c) && !Begins(c, error)
    ensures Completed(ConnectCommand(c, p, kind, timeout, error, now).core)
  {
  }

  lemma StepStaysCompleted(w: World, a: Action, b: Trials)
    requires WorldInv(w) && Enabled(w, a) && !Ending(a) && !BeginsSession(w, a) && Completed(w.core)
    ensures Completed(Perform(w, a).core) && RecordTrial(b, w, a) == b
  {
    hide Live, Completed, ConnectCommand, HandleEvent, Drive, InputStep, RunDue;
    if a.Connect? {
      ConnectStaysCompleted(w.core, w.progress, a.kind, a.timeout, a.error, a.now);
    } else if a.Event? && w.phase.events[0].Some? {
      EventStaysCompleted(w.core, w.progress, w.phase.events[0].value, a.now, a.outcome);
    } else if a.DriveConnection? {
      DrivesNothingMore(w.core, w.progress, a.now, a.outcome);
    } else {
      if a.Input? {
        InputKeepsAttempt(w.core, w.progress, a.command, a.now, a.outcome);
      } else if a.Due? {
        DueKeepsAttempt(w.core, w.progress, a.now, a.capacity, a.outcome);
      }
      SameAttemptStaysCompleted(w.core, Perform(w, a).core);
    }
  }

  lemma SameAttemptStaysCompleted(c: Core, c': Core)
    requires Completed(c) && c'.connection == c.connection
    ensures Completed(c')
  {
  }

  /** Once the handshake of a session has completed, or the attempt is over, there is no further trial until the next
      session begins, however long the run goes on. */
  lemma {:induction false} NoTrialAfterCompletion(r: Run, i: nat, j: nat)
    requires FreshRun(r) && i <= j < |r.worlds| && Alive(r.worlds[j].phase)
    requires Completed(r.worlds[i].core)
    requires forall k :: i <= k < j ==> !BeginsSession(r.worlds[k], r.actions[k])
    ensures TrialsOf(r, j) == TrialsOf(r, i) && Completed(r.worlds[j].core)
  {
    hide Completed, WorldInv, Enabled, Perform, RecordTrial, BeginsSession;
    if i < j {
      var w, a := r.worlds[j - 1], r.actions[j - 1];
      assert Leads(w, a, r.worlds[j]);
      FreshRunKeepsWorldInv(r, j - 1);
      DeadStaysDead(w, a);
      NoTrialAfterCompletion(r, i, j - 1);
      StepStaysCompleted(w, a, TrialsOf(r, j - 1));
    }
  }
}
