/** When a step reports a deadline that has already passed, so that the loop does not wait. */
module Deadlines {
  import opened Types
  import opened Clock
  import opened Command
  import Guarantees
  import opened Handshakes
  import opened Invariant
  import opened Machine
  import opened PeriodicPolicies
  import opened Readiness
  import opened Runs
  import opened Scheduler
  import opened Sender
  import opened Session
  import opened Transport
  import opened Waiting
  import opened Wire
  import opened WorldInvariant

  // ---- Retry points noted in a step ----

  /** The retry point at which a drive found its handshake waiting. */
  ghost function NotedRetry(c: Core, now: Duration, outcome: SendOutcome): Option<Duration> {
    if c.connection.None? || c.connection.value.handshake.None? then None
    else if InactiveError(c.connection.value.gate, now, c.sessions).Some? then None
    else
      match StepHandshake(c, now, outcome).1
      case Ok(WaitingUntil(deadline)) => Some(deadline)
      case _ => None
  }

  ghost function NoteRetry(notes: seq<Duration>, w: World, a: Action): seq<Duration> {
    match a
    case StepBegins => []
    case DriveConnection(now, outcome) =>
      var noted := NotedRetry(w.core, now, outcome);
      if noted.Some? then notes + [noted.value] else notes
    case _ => notes
  }

  /** The retry points that the drives of the current step have found. */
  ghost function NotesOf(r: Run, i: nat): seq<Duration>
    requires i <= |r.actions| <= |r.worlds|
  {
    if i == 0 then [] else NoteRetry(NotesOf(r, i - 1), r.worlds[i - 1], r.actions[i - 1])
  }

  predicate Least(deadline: Option<Duration>, notes: seq<Duration>) {
    && (deadline.None? <==> notes == [])
    && (deadline.Some? ==> deadline.value in notes)
    && forall k :: 0 <= k < |notes| ==> deadline.Some? && deadline.value <= notes[k]
  }

  lemma DriveNotes(c: Core, p: Progress, now: Duration, outcome: SendOutcome)
    ensures Drive(c, p, now, outcome).progress.nextDeadline
         == MinimumDeadline(p.nextDeadline, NotedRetry(c, now, outcome))
  {
    hide StepHandshake;
    if c.connection.Some? && InactiveError(c.connection.value.gate, now, c.sessions).None? {
      HandshakeAnswers(c, p, now, outcome);
      var o := DriveHandshake(c, p, now, outcome);
      SettlingNotesNothing(o.core, o.progress, now);
    }
  }

  lemma SettlingNotesNothing(c: Core, p: Progress, now: Duration)
    requires c.connection.Some?
    ensures SettleReadiness(c, p, now).progress.nextDeadline == p.nextDeadline
  {
    hide EvaluateReadiness;
  }

  lemma CommandsNoteNothing(c: Core, p: Progress, kind: ConnectionCommandKind, timeout: Duration, error: CallResult,
                            command: InputCommand, now: Duration, outcome: SendOutcome)
    ensures ConnectCommand(c, p, kind, timeout, error, now).progress.nextDeadline == p.nextDeadline
    ensures InputStep(c, p, command, now, outcome).progress.nextDeadline == p.nextDeadline
  {
    hide HandleCommand, BeginConnection;
  }

  lemma EventsNoteNothing(c: Core, p: Progress, event: SessionEvent, now: Duration, outcome: SendOutcome)
    ensures HandleEvent(c, p, event, now, outcome).progress.nextDeadline == p.nextDeadline
  {
    hide ReplyToOutput;
  }

  lemma DueNotesNothing(c: Core, p: Progress, now: Duration, capacity: bool, outcome: SendOutcome)
    ensures RunDue(c, p, now, capacity, outcome).progress.nextDeadline == p.nextDeadline
  {
    hide SendAutomatic, ReleasePeriodicTap, DirectSend;
  }

  lemma WorkNotesNothing(w: World, a: Action)
    requires Enabled(w, a) && !Ending(a) && !a.StepBegins? && !a.DriveConnection? && !a.Finish? && !a.Deliver?
    ensures Perform(w, a).progress.nextDeadline == w.progress.nextDeadline
  {
    hide ConnectCommand, InputStep, HandleEvent, RunDue;
    match a
    case Connect(kind, timeout, error, now) =>
      CommandsNoteNothing(w.core, w.progress, kind, timeout, error, Neutral, now, Accepted);
    case Input(command, now, outcome) =>
      CommandsNoteNothing(w.core, w.progress, PairCommand, 0, None, command, now, outcome);
    case Event(now, outcome) =>
      if w.phase.events[0].Some? {
        EventsNoteNothing(w.core, w.progress, w.phase.events[0].value, now, outcome);
      }
    case Due(now, capacity, outcome) => DueNotesNothing(w.core, w.progress, now, capacity, outcome);
    case _ =>
  }

  /** In a step, the deadline kept so far is the least of the noted retry points. */
  predicate KeepsNotes(w: World, notes: seq<Duration>) {
    InStep(w.phase) ==> Least(w.progress.nextDeadline, notes)
  }

  lemma StepKeepsNotes(w: World, a: Action, notes: seq<Duration>)
    requires WorldInv(w) && Enabled(w, a) && !Ending(a) && KeepsNotes(w, notes)
    ensures KeepsNotes(Perform(w, a), NoteRetry(notes, w, a))
  {
    if a.DriveConnection? {
      DriveKeepsNotes(w, a, notes);
    } else if a.StepBegins? || a.Finish? || a.Deliver? || a.Wait? {
      hide Live;
    } else {
      hide Perform, Live;
      WorkNotesNothing(w, a);
      WorkIsInStep(w, a);
    }
  }

  lemma WorkIsInStep(w: World, a: Action)
    requires Enabled(w, a) && !Ending(a) && !a.StepBegins? && !a.Deliver? && !a.Wait?
    ensures InStep(w.phase)
  {
  }

  lemma DriveKeepsNotes(w: World, a: Action, notes: seq<Duration>)
    requires Enabled(w, a) && a.DriveConnection? && KeepsNotes(w, notes)
    ensures KeepsNotes(Perform(w, a), NoteRetry(notes, w, a))
  {
    hide Drive, NotedRetry;
    DriveNotes(w.core, w.progress, a.now, a.outcome);
    LeastOfOneMore(w.progress.nextDeadline, notes, NotedRetry(w.core, a.now, a.outcome));
  }

  lemma LeastOfOneMore(deadline: Option<Duration>, notes: seq<Duration>, noted: Option<Duration>)
    requires Least(deadline, notes)
    ensures Least(MinimumDeadline(deadline, noted), if noted.Some? then notes + [noted.value] else notes)
  {
    if noted.Some? {
      var more := notes + [noted.value];
      assert more[|notes|] == noted.value;
      assert deadline.Some? ==> deadline.value in more;
    }
  }

  // ---- What lies ahead after the last look ----

  /** After the last drive of a step the next retry point lies ahead. */
  predicate RetryAhead(c: Core, driven: Duration) {
    c.connection.Some? && c.connection.value.handshake.Some? && c.connection.value.handshake.value.NextDeadline().Some? ==>
      driven < c.connection.value.handshake.value.NextDeadline().value
  }

  /** The schedule can move no further: the skip count or the next point does not fit. */
  predicate Overflowed(p: Policy, now: Duration) {
    p.schedule.Some? && !p.Held(now) && Tick(p.schedule.value, now).Err?
  }

  predicate ScheduleAhead(p: Policy, now: Duration) {
    p.schedule.Some? ==> now < p.NextDeadline().value || Overflowed(p, now)
  }

  predicate Ahead(w: World) {
    && (w.phase.DueCheck? || w.phase.Finishing? ==> w.driven <= w.time && RetryAhead(w.core, w.driven))
    && (w.phase.Finishing? && !w.progress.immediate ==> ScheduleAhead(w.core.policy, w.time))
  }

  lemma ShakeLeavesRetryAhead(h: Shake, o: Outbound, id: U64, now: Duration, observedAny: bool, outcome: SendOutcome)
    requires h.sessionId == id && (h.retry.Some? ==> h.TopologyReady())
    ensures var (h', _, r) := StepShake(h, o, id, now, observedAny, outcome);
            r.Ok? && h'.NextDeadline().Some? ==> now < h'.NextDeadline().value
  {
  }

  lemma DriveLeavesRetryAhead(c: Core, p: Progress, now: Duration, outcome: SendOutcome)
    requires Live(c)
    ensures var o := Drive(c, p, now, outcome);
            o.fault.None? ==> RetryAhead(o.core, now)
  {
    hide SettleReadiness, StepShake;
    if c.connection.Some? && InactiveError(c.connection.value.gate, now, c.sessions).None? {
      var a := c.connection.value;
      if a.handshake.Some? {
        ShakeLeavesRetryAhead(a.handshake.value, c.out, a.sessionId, now, c.observed.ids != iset{}, outcome);
      }
      HandshakeAnswers(c, p, now, outcome);
      var o := DriveHandshake(c, p, now, outcome);
      if o.fault.None? {
        SettlingKeepsRetry(o.core, o.progress, now);
      }
    }
  }

  lemma SettlingKeepsRetry(c: Core, p: Progress, now: Duration)
    requires c.connection.Some? && RetryAhead(c, now)
    ensures RetryAhead(SettleReadiness(c, p, now).core, now)
  {
  }

  lemma DueLeavesScheduleAhead(c: Core, p: Progress, now: Duration, capacity: bool, outcome: SendOutcome)
    requires c.mode.Periodic?
    ensures var o := RunDue(c, p, now, capacity, outcome);
            o.progress.immediate || ScheduleAhead(o.core.policy, now)
  {
    hide SendInput;
  }

  lemma StepLeavesAhead(w: World, a: Action)
    requires WorldInv(w) && Enabled(w, a) && !Ending(a) && Ahead(w)
    ensures Ahead(Perform(w, a))
  {
    hide Perform, Live;
    PhasesComeFromActions(w, a);
    if a.DriveConnection? {
      DriveIsAhead(w, a);
    } else if a.Due? {
      DueIsAhead(w, a);
    }
  }

  lemma DriveIsAhead(w: World, a: Action)
    requires WorldInv(w) && Enabled(w, a) && a.DriveConnection?
    ensures Ahead(Perform(w, a))
  {
    hide Drive, Live, RetryAhead;
    DriveLeavesRetryAhead(w.core, w.progress, a.now, a.outcome);
  }

  lemma DueIsAhead(w: World, a: Action)
    requires WorldInv(w) && Enabled(w, a) && a.Due? && Ahead(w)
    ensures Ahead(Perform(w, a))
  {
    hide RunDue, Live, ScheduleAhead;
    DueLeavesNothingOverdue(w.core, w.progress, a.now, a.capacity, a.outcome);
    if w.core.mode.Periodic? {
      DueLeavesScheduleAhead(w.core, w.progress, a.now, a.capacity, a.outcome);
    } else {
      DirectHasNoSchedule(w, a);
    }
  }

  lemma DirectHasNoSchedule(w: World, a: Action)
    requires WorldInv(w) && Enabled(w, a) && a.Due? && w.core.mode.Direct?
    ensures ScheduleAhead(Perform(w, a).core.policy, a.now)
  {
  }

  lemma {:induction false} RunIsAhead(r: Run, i: nat)
    requires FreshRun(r) && i < |r.worlds| && Alive(r.worlds[i].phase)
    ensures Ahead(r.worlds[i]) && KeepsNotes(r.worlds[i], NotesOf(r, i))
  {
    hide Ahead, KeepsNotes, WorldInv, Enabled, Perform, NoteRetry;
    if i == 0 {
      NewWorldIsAhead(r);
    } else {
      var w, a := r.worlds[i - 1], r.actions[i - 1];
      assert Leads(w, a, r.worlds[i]);
      FreshRunKeepsWorldInv(r, i - 1);
      DeadStaysDead(w, a);
      RunIsAhead(r, i - 1);
      StepLeavesAhead(w, a);
      StepKeepsNotes(w, a, NotesOf(r, i - 1));
    }
  }

  lemma NewWorldIsAhead(r: Run)
    requires FreshRun(r)
    ensures Ahead(r.worlds[0]) && KeepsNotes(r.worlds[0], [])
  {
    hide Perform, Enabled;
    var mode, period, budget :| 0 < budget && r.worlds[0] == NewWorld(mode, period, budget);
  }

  // ---- Past deadlines ----

  predicate Past(deadline: Option<Duration>, driven: Duration) {
    deadline.Some? && deadline.value <= driven
  }

  /** A Periodic worker without a schedule, whose holdoff had expired when the connection was last driven. */
  predicate Unscheduled(c: Core, driven: Duration) {
    c.mode.Periodic? && c.policy.schedule.None? && Past(c.policy.holdoff, driven)
  }

  /** A step that does not ask to go on at once reports a deadline no later than its last drive exactly in three cases: the
      worker is Periodic, has no schedule and an expired holdoff; an earlier drive of the step noted a retry point that
      has passed since; or the schedule has overflowed and stays where it was. */
  lemma PastDeadlinesExactlyWhen(r: Run, i: nat)
    requires FreshRun(r) && i < |r.actions| && r.actions[i].Finish? && !r.worlds[i + 1].progress.immediate
    ensures var w := r.worlds[i + 1];
            Past(w.progress.nextDeadline, w.driven) <==>
              || Unscheduled(w.core, w.driven)
              || (exists k :: 0 <= k < |NotesOf(r, i)| && NotesOf(r, i)[k] <= w.driven)
              || (Overflowed(w.core.policy, w.time) && Past(w.core.policy.NextDeadline(), w.driven))
  {
    hide Perform, Enabled, WorldInv, NoteRetry, Ahead, KeepsNotes;
    assert Leads(r.worlds[i], r.actions[i], r.worlds[i + 1]);
    FinishIsAlive(r.worlds[i], r.actions[i]);
    FreshRunKeepsWorldInv(r, i);
    RunIsAhead(r, i);
    Guarantees.FinishedStep(r.worlds[i], r.actions[i]);
    FinishLooksBack(r.worlds[i], r.actions[i], NotesOf(r, i));
  }

  lemma FinishIsAlive(w: World, a: Action)
    requires Enabled(w, a) && a.Finish?
    ensures Alive(w.phase)
  {
  }

  lemma FinishLooksBack(w: World, a: Action, notes: seq<Duration>)
    requires WorldInv(w) && Enabled(w, a) && a.Finish? && !w.progress.immediate
    requires Ahead(w) && KeepsNotes(w, notes)
    ensures Past(MinimumDeadline(w.progress.nextDeadline, NextDeadline(w.core)), w.driven) <==>
              || Unscheduled(w.core, w.driven)
              || (exists k :: 0 <= k < |notes| && notes[k] <= w.driven)
              || (Overflowed(w.core.policy, w.time) && Past(w.core.policy.NextDeadline(), w.driven))
  {
  }

  /** Then, and only then, the loop goes on without waiting whenever it decides after that drive. */
  lemma PastDeadlinesNeverWait(p: Progress, driven: Duration)
    requires !p.immediate
    ensures Past(p.nextDeadline, driven) <==> NeverWaits(p, driven)
  {
    if NeverWaits(p, driven) {
      assert WaitRequestFor(p, driven).None?;
    }
  }

  ghost predicate NeverWaits(p: Progress, since: Duration) {
    forall now: Duration :: since <= now ==> WaitRequestFor(p, now).None?
  }

  // ---- Waiting for the host without waiting ----

  /** A Periodic worker that waits for the topology of its session, while only the holdoff has a deadline. */
  predicate Stuck(c: Core, until: Duration, holdoff: Duration) {
    && c.mode.Periodic? && c.connection.Some? && c.connection.value.handshake.Some?
    && !c.connection.value.handshake.value.TopologyReady() && !c.connection.value.handshake.value.stopped
    && c.connection.value.gate.deadline == until
    && c.policy.schedule.None? && c.policy.holdoff == Some(holdoff)
  }

  /** An action of a step in which the transport is silent and the operation has time left, or between such steps. */
  predicate Quiet(a: Action, until: Duration) {
    match a
    case StepBegins => true
    case Settle => true
    case Poll(events) => events == Ok([])
    case DriveConnection(now, _) => now < until
    case Finish => true
    case Deliver => true
    case Wait(_) => true
    case _ => false
  }

  /** Only the trace, which holds the polls, has changed. */
  predicate SameButTrace(c: Core, c': Core) {
    c' == c.(out := c.out.(wire := c'.out.wire))
  }

  lemma StuckDriveIsIdle(c: Core, p: Progress, now: Duration, outcome: SendOutcome, until: Duration, holdoff: Duration)
    requires Live(c) && Stuck(c, until, holdoff) && now < until
    ensures Drive(c, p, now, outcome) == Outcome(c, p, None)
  {
  }

  lemma StuckDeadline(c: Core, until: Duration, holdoff: Duration)
    requires Live(c) && Stuck(c, until, holdoff)
    ensures Past(NextDeadline(c), holdoff) && c.HasPending() && !DueAllowed(c)
  {
  }

  /** A quiet step so far has found nothing; a finished one has reported the expired holdoff or something earlier. */
  predicate FoundNothing(w: World, holdoff: Duration) {
    && (w.phase.Started? || w.phase.Polling? || w.phase.LastDrive? || w.phase.DueCheck? ==> !w.progress.immediate)
    && (w.phase.Delivering? ==> !w.progress.immediate && Past(w.progress.nextDeadline, holdoff))
    && (w.phase.Idle? || w.phase.Started? || w.phase.Polling? || w.phase.LastDrive? || w.phase.DueCheck?
        || w.phase.Delivering?)
  }

  lemma QuietDriveFindsNothing(w: World, a: Action, until: Duration, holdoff: Duration)
    requires WorldInv(w) && Enabled(w, a) && a.DriveConnection? && Quiet(a, until) && Stuck(w.core, until, holdoff)
    requires FoundNothing(w, holdoff)
    ensures SameButTrace(w.core, Perform(w, a).core) && FoundNothing(Perform(w, a), holdoff)
  {
    hide Drive, Live, Stuck;
    StuckDriveIsIdle(w.core, w.progress, a.now, a.outcome, until, holdoff);
  }

  lemma QuietFinishFindsNothing(w: World, a: Action, until: Duration, holdoff: Duration)
    requires WorldInv(w) && Enabled(w, a) && a.Finish? && Stuck(w.core, until, holdoff) && FoundNothing(w, holdoff)
    ensures SameButTrace(w.core, Perform(w, a).core) && FoundNothing(Perform(w, a), holdoff)
  {
    hide NextDeadline, DueAllowed, Live, Stuck;
    StuckDeadline(w.core, until, holdoff);
  }

  lemma OtherQuietFindsNothing(w: World, a: Action, until: Duration, holdoff: Duration)
    requires WorldInv(w) && Enabled(w, a) && Quiet(a, until) && !a.DriveConnection? && !a.Finish?
    requires Stuck(w.core, until, holdoff) && FoundNothing(w, holdoff)
    ensures SameButTrace(w.core, Perform(w, a).core) && FoundNothing(Perform(w, a), holdoff)
  {
    hide Live, NextDeadline, Stuck;
    StuckDeadline(w.core, until, holdoff);
  }

  lemma QuietFindsNothing(w: World, a: Action, until: Duration, holdoff: Duration)
    requires WorldInv(w) && Enabled(w, a) && Quiet(a, until) && Stuck(w.core, until, holdoff)
    requires FoundNothing(w, holdoff)
    ensures SameButTrace(w.core, Perform(w, a).core) && FoundNothing(Perform(w, a), holdoff)
  {
    hide Perform, Enabled, Quiet, Stuck, FoundNothing, SameButTrace;
    if a.DriveConnection? {
      QuietDriveFindsNothing(w, a, until, holdoff);
    } else if a.Finish? {
      QuietFinishFindsNothing(w, a, until, holdoff);
    } else {
      OtherQuietFindsNothing(w, a, until, holdoff);
    }
  }

  /** From any idle moment of any run at which the worker is stuck in this way, quiet steps before the deadline of the
      operation leave everything but the trace as it was, however many there are and however long they take; and after
      each of them the loop, once the holdoff has expired, goes on without waiting. So it spins until the transport
      speaks, a shutdown is requested or the operation times out. */
  lemma {:induction false} StuckWorkersSpin(r: Run, i: nat, j: nat, until: Duration, holdoff: Duration)
    requires FreshRun(r) && i <= j < |r.worlds| && r.worlds[i].phase.Idle?
    requires Stuck(r.worlds[i].core, until, holdoff)
    requires forall k :: i <= k < j ==> Quiet(r.actions[k], until)
    ensures SameButTrace(r.worlds[i].core, r.worlds[j].core) && FoundNothing(r.worlds[j], holdoff)
    ensures r.worlds[j].phase.Delivering? ==> NeverWaits(r.worlds[j].progress, holdoff)
  {
    hide WorldInv, Enabled, Perform, Quiet;
    if i < j {
      StuckWorkersSpin(r, i, j - 1, until, holdoff);
      assert Leads(r.worlds[j - 1], r.actions[j - 1], r.worlds[j]);
      FreshRunKeepsWorldInv(r, j - 1);
      QuietFindsNothing(r.worlds[j - 1], r.actions[j - 1], until, holdoff);
      if r.worlds[j].phase.Delivering? {
        PastDeadlinesNeverWait(r.worlds[j].progress, holdoff);
      }
    }
  }

  lemma LiveWhenIdle(r: Run)
    requires r.worlds != [] && Sound(r) && r.Last().phase.Idle?
    ensures Live(r.Last().core) && 0 < r.Last().budget && r.Last().fault.None?
  {
  }

  lemma PolledStaysStuck(c: Core, call: PortCall, until: Duration, holdoff: Duration)
    requires Live(c) && Stuck(c, until, holdoff)
    ensures Live(WithCall(c, call)) && Stuck(WithCall(c, call), until, holdoff) && SameButTrace(c, WithCall(c, call))
  {
  }

  function QuietActions(now: Duration): seq<Action> {
    [StepBegins, Settle, Poll(Ok([])), DriveConnection(now, Accepted), Finish, Deliver]
  }

  /** The first half of a quiet step: nothing to take, nothing polled. */
  lemma QuietLook(r: Run) returns (r': Run)
    requires r.worlds != [] && Sound(r) && r.Last().phase.Idle? && r.Last().core.HasPending() && r.Last().fault.None?
    ensures Sound(r') && r'.Extends(r) && r'.Last().phase.LastDrive?
    ensures r'.Last().core == WithCall(r.Last().core, Polled(Ok([]))) && r'.Last().progress == FRESH
    ensures r'.Last().time == r.Last().time && r'.Last().fault.None?
    ensures r'.actions == r.actions + [StepBegins, Settle, Poll(Ok([]))]
  {
    hide Sound, WithCall;
    r' := GoQuietly(r, StepBegins);
    r' := GoQuietly(r', Settle);
    r' := GoPoll(r', Ok([]));
  }

  /** The second half: the drive waits, and the step reports its deadline. */
  lemma QuietEnd(r: Run, now: Duration) returns (r': Run)
    requires r.worlds != [] && Sound(r) && r.Last().phase.LastDrive? && r.Last().time <= now
    requires Drive(r.Last().core, r.Last().progress, now, Accepted) == Outcome(r.Last().core, r.Last().progress, None)
    requires !DueAllowed(r.Last().core) && r.Last().progress == FRESH
    ensures Sound(r') && r'.Extends(r) && r'.Last().phase.Idle? && r'.Last().time == now
    ensures r'.Last().core == r.Last().core
    ensures r'.Last().progress == FRESH.(nextDeadline := NextDeadline(r.Last().core))
    ensures r'.actions == r.actions + [DriveConnection(now, Accepted), Finish, Deliver]
  {
    hide Sound, Drive, DueAllowed, NextDeadline;
    r' := GoDrive(r, now, Accepted);
    r' := GoQuietly(r', Finish);
    r' := GoQuietly(r', Deliver);
  }

  /** A stuck worker can take a quiet step at any time before the deadline, and does not wait after it. */
  lemma QuietStep(r: Run, now: Duration, until: Duration, holdoff: Duration) returns (r': Run)
    requires r.worlds != [] && FreshRun(r) && Sound(r) && r.Last().phase.Idle? && Stuck(r.Last().core, until, holdoff)
    requires r.Last().time <= now < until
    ensures r'.worlds != [] && FreshRun(r') && Sound(r') && r'.Extends(r)
    ensures r'.Last().phase.Idle? && r'.Last().time == now && SameButTrace(r.Last().core, r'.Last().core)
    ensures !r'.Last().progress.immediate && NeverWaits(r'.Last().progress, holdoff)
    ensures r'.actions == r.actions + QuietActions(now)
  {
    hide Sound, FreshRun, Live, Stuck, Drive, NextDeadline, DueAllowed, SameButTrace, NeverWaits;
    var core := r.Last().core;
    LiveWhenIdle(r);
    StuckDeadline(core, until, holdoff);
    var looked := QuietLook(r);
    PolledStaysStuck(core, Polled(Ok([])), until, holdoff);
    StuckDriveIsIdle(looked.Last().core, FRESH, now, Accepted, until, holdoff);
    StuckDeadline(looked.Last().core, until, holdoff);
    r' := QuietEnd(looked, now);
    StillFresh(r, r');
    PastDeadlinesNeverWait(r'.Last().progress, holdoff);
  }
}
