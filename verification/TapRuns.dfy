/** Taps over whole runs: what is released, when, and that nothing else is committed meanwhile. */
module TapRuns {
  import opened Types
  import Cleanup
  import opened Clock
  import opened Command
  import opened Input
  import opened Invariant
  import opened Machine
  import opened Runs
  import opened Session
  import opened StaleEvents
  import opened Sender
  import opened Transport
  import opened Wire
  import opened WorldInvariant

  /** The latest tap command: the input it found, and what it asked for. */
  datatype TapRecord = TapRecord(before: InputState, buttons: seq<Button>, duration: Duration, at: Duration)

  function RecordTap(t: TapRecord, c: Core, a: Action): TapRecord {
    match a
    case Input(Tap(buttons, duration), now, _) => TapRecord(c.input, buttons, duration, now)
    case _ => t
  }

  function TapOf(r: Run, i: nat): TapRecord
    requires i <= |r.actions| <= |r.worlds|
  {
    if i == 0 then TapRecord(NEUTRAL, [], 0, 0) else RecordTap(TapOf(r, i - 1), r.worlds[i - 1].core, r.actions[i - 1])
  }

  /** A pending tap holds down exactly its own buttons, and will let go of exactly those, at its own time. */
  predicate Holds(c: Core, t: TapRecord) {
    c.tap.Some? ==>
      && Pressed(t.before, t.buttons) == Ok(c.input)
      && Released(c.input, t.buttons) == Ok(c.tap.value.released)
      && c.tap.value.releaseAt == DeadlineAfter(t.at, t.duration)
  }

  lemma InputHolds(c: Core, p: Progress, command: InputCommand, now: Duration, outcome: SendOutcome, t: TapRecord)
    requires c.tap.None?
    ensures Holds(InputStep(c, p, command, now, outcome).core, RecordTap(t, c, Input(command, now, outcome)))
  {
  }

  /** How the end of a tap leaves the input: unless it is released, as it was. */
  predicate TapEndsUnreleased(c: Core, c': Core) {
    c'.input == c.input && (c'.tap == c.tap || c'.tap.None?)
  }

  lemma EventsKeepPressedInput(c: Core, p: Progress, event: SessionEvent, now: Duration, outcome: SendOutcome)
    ensures var c' := HandleEvent(c, p, event, now, outcome).core;
            c'.input == c.input && c'.tap == if Disconnects(c, event) then None else c.tap
  {
  }

  lemma DrivesKeepPressedInput(c: Core, p: Progress, now: Duration, outcome: SendOutcome)
    requires Live(c)
    ensures c.tap.Some? ==> Drive(c, p, now, outcome) == Outcome(c, p, None)
    ensures c.tap.None? ==> Drive(c, p, now, outcome).core.tap.None?
  {
  }

  /** The release: the current input minus the tap's buttons is sent, and is committed in Periodic mode whatever happens
      to the report, in Direct mode only if it is accepted. */
  lemma DueReleases(c: Core, p: Progress, now: Duration, capacity: bool, outcome: SendOutcome)
    requires Live(c)
    ensures var c' := RunDue(c, p, now, capacity, outcome).core;
            if TapDue(c, now) then
              && c'.tap.None?
              && c'.input == (if c.mode.Periodic? || outcome.Accepted? then c.tap.value.released else c.input)
              && c'.out.wire == c.out.wire + [Sent(InputReportOf(c.out.sender, c.tap.value.released, now), outcome)]
            else c'.tap == c.tap && c'.input == c.input
  {
  }

  lemma HoldsAfterward(c: Core, c': Core, t: TapRecord)
    requires Holds(c, t) && TapEndsUnreleased(c, c')
    ensures Holds(c', t)
  {
  }

  lemma StepHolds(w: World, a: Action, t: TapRecord)
    requires WorldInv(w) && Enabled(w, a) && !Ending(a) && Holds(w.core, t)
    ensures Holds(Perform(w, a).core, RecordTap(t, w.core, a))
  {
    if a.Input? {
      InputIsHeld(w, a, t);
    } else if a.Due? {
      DueIsHeld(w, a, t);
    } else {
      hide Perform, Enabled, WorldInv, Interrupts;
      OthersEndUnreleased(w, a);
      if w.core.tap.Some? {
        HoldsAfterward(w.core, Perform(w, a).core, t);
      }
    }
  }

  lemma InputIsHeld(w: World, a: Action, t: TapRecord)
    requires Enabled(w, a) && a.Input?
    ensures Holds(Perform(w, a).core, RecordTap(t, w.core, a))
  {
    hide InputStep, Holds;
    InputHolds(w.core, w.progress, a.command, a.now, a.outcome, t);
  }

  lemma DueIsHeld(w: World, a: Action, t: TapRecord)
    requires WorldInv(w) && Enabled(w, a) && a.Due? && Holds(w.core, t)
    ensures Holds(Perform(w, a).core, t)
  {
    hide RunDue, Live;
    DueReleases(w.core, w.progress, a.now, a.capacity, a.outcome);
  }

  lemma ConnectingHasNoTap(c: Core, p: Progress, kind: ConnectionCommandKind, timeout: Duration, error: CallResult,
                           now: Duration)
    requires c.tap.None?
    ensures ConnectCommand(c, p, kind, timeout, error, now).core.tap.None?
  {
  }

  lemma EndingsKeepPressedInput(c: Core, p: Progress, request: ShutdownRequest, e: WorkerCoreError, now: Duration,
                                answers: Cleanup.CleanupAnswers)
    ensures CloseWorker(c, p, request, now, answers).0.input == c.input
    ensures CloseWorker(c, p, request, now, answers).0.tap.None?
    ensures FailWorker(c, p, e).0.input == c.input && FailWorker(c, p, e).0.tap == c.tap
    ensures CleanUpAfterFailure(c, now, answers).input == c.input && CleanUpAfterFailure(c, now, answers).tap.None?
  {
    hide Cleanup.RunCleanup;
  }

  /** What ends a pending tap without releasing it: a disconnect of its session, a shutdown, and the cleanup after a
      failure. */
  predicate Interrupts(w: World, a: Action) {
    a.Shutdown? || a.CleanUpFailed? || EndsSession(w, a)
  }

  /** What an action other than input and due work leaves of a pending tap. */
  predicate KeepsOrInterrupts(w: World, a: Action, c': Core) {
    && (w.core.tap.Some? ==> c'.input == w.core.input && c'.tap == if Interrupts(w, a) then None else w.core.tap)
    && (w.core.tap.None? ==> c'.tap.None?)
  }

  lemma EndingsKeepOrInterrupt(w: World, a: Action)
    requires Enabled(w, a) && Ending(a)
    ensures KeepsOrInterrupts(w, a, Perform(w, a).core)
  {
    hide CloseWorker, FailWorker, CleanUpAfterFailure;
    match a
    case Shutdown(request, now, answers) =>
      EndingsKeepPressedInput(w.core, w.progress, request, InvalidLifecycle, now, answers);
    case CleanUpFailed(now, answers) =>
      EndingsKeepPressedInput(w.core, w.progress, DroppedShutdown, InvalidLifecycle, now, answers);
    case Fail =>
      if w.fault.Some? {
        EndingsKeepPressedInput(w.core, w.progress, DroppedShutdown, w.fault.value, w.time,
                                Cleanup.CleanupAnswers(Accepted, None, None, None));
      }
    case _ =>
  }

  lemma WorkKeepsOrInterrupts(w: World, a: Action)
    requires WorldInv(w) && Enabled(w, a) && !Ending(a) && !a.Input? && !a.Due?
    ensures KeepsOrInterrupts(w, a, Perform(w, a).core)
  {
    hide Drive, HandleEvent, ConnectCommand, Live;
    match a
    case Connect(kind, timeout, error, now) => ConnectingHasNoTap(w.core, w.progress, kind, timeout, error, now);
    case Event(now, outcome) =>
      if w.phase.events[0].Some? {
        EventsKeepPressedInput(w.core, w.progress, w.phase.events[0].value, now, outcome);
      }
    case DriveConnection(now, outcome) => DrivesKeepPressedInput(w.core, w.progress, now, outcome);
    case _ =>
  }

  /** Nothing but its own release changes the input while a tap is pending, and beside it exactly the interruptions end
      the tap: not a reply, not a rejected report, and not the failure itself. */
  lemma OthersEndUnreleased(w: World, a: Action)
    requires WorldInv(w) && Enabled(w, a) && !a.Input? && !a.Due?
    ensures var c' := Perform(w, a).core;
            && (w.core.tap.Some? ==> c'.input == w.core.input)
            && (w.core.tap.Some? ==> c'.tap == if Interrupts(w, a) then None else w.core.tap)
            && (w.core.tap.None? ==> c'.tap.None?)
  {
    hide Perform, Enabled, WorldInv, Interrupts;
    if Ending(a) {
      EndingsKeepOrInterrupt(w, a);
    } else {
      WorkKeepsOrInterrupts(w, a);
    }
  }

  // ---- At most one release ----

  predicate Releases(c: Core, a: Action) {
    a.Due? && TapDue(c, a.now)
  }

  /** The release attempts since the latest tap command. */
  function ReleasesOf(r: Run, i: nat): nat
    requires i <= |r.actions| <= |r.worlds|
  {
    if i == 0 then 0
    else if r.actions[i - 1].Input? && r.actions[i - 1].command.Tap? then 0
    else ReleasesOf(r, i - 1) + if Releases(r.worlds[i - 1].core, r.actions[i - 1]) then 1 else 0
  }

  /** Only a tap command makes a tap pending. */
  lemma OnlyTapsArePending(w: World, a: Action)
    requires WorldInv(w) && Enabled(w, a)
    ensures w.core.tap.None? && Perform(w, a).core.tap.Some? ==> a.Input? && a.command.Tap?
    ensures a.Input? ==> w.core.tap.None?
  {
    hide Live;
    if a.Input? {
      InputWithoutTap(w, a);
    } else if a.Due? {
      DueEndsTap(w, a);
    } else {
      OthersEndUnreleased(w, a);
    }
  }

  lemma InputWithoutTap(w: World, a: Action)
    requires Enabled(w, a) && a.Input?
    ensures !a.command.Tap? ==> Perform(w, a).core.tap == w.core.tap
  {
  }

  lemma DueEndsTap(w: World, a: Action)
    requires WorldInv(w) && Enabled(w, a) && a.Due?
    ensures Perform(w, a).core.tap == if TapDue(w.core, a.now) then None else w.core.tap
  {
    hide RunDue, Live;
    DueReleases(w.core, w.progress, a.now, a.capacity, a.outcome);
  }

  function Pending(c: Core): nat {
    if c.tap.Some? then 1 else 0
  }

  /** In every run of a new worker the release of a tap is attempted at most once, and never once the tap is gone: since
      the latest tap command there was one attempt, or the tap is still pending, or it was interrupted. */
  lemma {:induction false} TapsAreReleasedAtMostOnce(r: Run, i: nat)
    requires FreshRun(r) && i < |r.worlds|
    ensures ReleasesOf(r, i) + Pending(r.worlds[i].core) <= 1
  {
    hide WorldInv, Enabled, Perform, Interrupts;
    if i == 0 {
      NewWorldHasNoTap(r);
    } else {
      var w, a := r.worlds[i - 1], r.actions[i - 1];
      assert Leads(w, a, r.worlds[i]);
      FreshRunKeepsWorldInv(r, i - 1);
      TapsAreReleasedAtMostOnce(r, i - 1);
      OnlyTapsArePending(w, a);
      if a.Due? {
        DueEndsTap(w, a);
      }
    }
  }

  /** From the interruption of a tap up to the next tap command nothing is released: not after a disconnect, a shutdown or
      a failure's cleanup. */
  lemma {:induction false} InterruptedTapsAreNeverReleased(r: Run, i: nat, j: nat)
    requires FreshRun(r) && i < j < |r.worlds| && Interrupts(r.worlds[i], r.actions[i])
    requires forall k :: i < k < j ==> !(r.actions[k].Input? && r.actions[k].command.Tap?)
    ensures r.worlds[j].core.tap.None? && ReleasesOf(r, j) == ReleasesOf(r, i)
  {
    hide WorldInv, Enabled, Perform, Interrupts;
    assert Leads(r.worlds[j - 1], r.actions[j - 1], r.worlds[j]);
    FreshRunKeepsWorldInv(r, j - 1);
    if i + 1 == j {
      InterruptionsEndTaps(r.worlds[i], r.actions[i]);
    } else {
      InterruptedTapsAreNeverReleased(r, i, j - 1);
      OnlyTapsArePending(r.worlds[j - 1], r.actions[j - 1]);
    }
  }

  lemma InterruptionsEndTaps(w: World, a: Action)
    requires WorldInv(w) && Enabled(w, a) && Interrupts(w, a)
    ensures Perform(w, a).core.tap.None? && !a.Due? && !a.Input?
  {
    hide Perform, WorldInv, Enabled;
    OthersEndUnreleased(w, a);
  }

  lemma {:induction false} RunHolds(r: Run, i: nat)
    requires FreshRun(r) && i < |r.worlds| && Alive(r.worlds[i].phase)
    ensures Holds(r.worlds[i].core, TapOf(r, i))
  {
    hide WorldInv, Enabled, Perform, RecordTap, Pressed, Released;
    if i == 0 {
      NewWorldHasNoTap(r);
    } else {
      var w, a := r.worlds[i - 1], r.actions[i - 1];
      assert Leads(w, a, r.worlds[i]);
      FreshRunKeepsWorldInv(r, i - 1);
      DeadStaysDead(w, a);
      RunHolds(r, i - 1);
      StepHolds(w, a, TapOf(r, i - 1));
    }
  }

  lemma NewWorldHasNoTap(r: Run)
    requires FreshRun(r)
    ensures r.worlds[0].core.tap.None?
  {
  }

  /** In every run of a new worker, due work with a tap that is due sends the input it holds minus exactly the buttons of
      that tap, not before its time, and never again; Periodic commits it whatever the transport answers, Direct only
      on acceptance. */
  lemma TapsReleaseWhatTheyPressed(r: Run, i: nat)
    requires FreshRun(r) && i < |r.actions| && Alive(r.worlds[i].phase)
    requires r.actions[i].Due? && TapDue(r.worlds[i].core, r.actions[i].now)
    ensures var c, c' := r.worlds[i].core, r.worlds[i + 1].core;
            var t, a := TapOf(r, i), r.actions[i];
            && Pressed(t.before, t.buttons) == Ok(c.input)
            && Released(c.input, t.buttons).Ok?
            && (t.at + t.duration <= a.now || a.now == DURATION_MAX)
            && c'.tap.None?
            && c'.out.wire == c.out.wire + [Sent(InputReportOf(c.out.sender, Released(c.input, t.buttons).value, a.now),
                                                 a.outcome)]
            && c'.input == if c.mode.Periodic? || a.outcome.Accepted? then Released(c.input, t.buttons).value else c.input
  {
    hide Enabled, Perform, Live, RunDue;
    var w, a := r.worlds[i], r.actions[i];
    assert Leads(w, a, r.worlds[i + 1]);
    RunHolds(r, i);
    FreshRunKeepsWorldInv(r, i);
    DueOfWorld(w, a);
    DueReleases(w.core, w.progress, a.now, a.capacity, a.outcome);
  }

  lemma DueOfWorld(w: World, a: Action)
    requires Enabled(w, a) && a.Due?
    ensures Perform(w, a).core == RunDue(w.core, w.progress, a.now, a.capacity, a.outcome).core
  {
    hide RunDue;
  }
}
