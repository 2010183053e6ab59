/** What an input command does, button by button: to the committed input, on the transport and for its caller. */
module InputCommands {
  import opened Types
  import Cleanup
  import opened Command
  import Effects
  import opened Input
  import opened Invariant
  import opened Lifecycle
  import opened Machine
  import opened PeriodicPolicies
  import opened Runs
  import opened Sender
  import TapRuns
  import opened Taps
  import opened Transport
  import opened Wire
  import opened WorldInvariant

  /** The state a command asks for: pressing adds the listed buttons and releasing takes them away, each leaving every
      other button, the sticks and the IMU as they were. A tap starts by pressing. */
  predicate Asks(command: InputCommand, before: InputState, after: InputState) {
    match command
    case Candidate(state) => after == state
    case Neutral => after == NEUTRAL
    case Release(buttons) =>
      && after == before.(buttons := after.buttons)
      && forall b: Button :: b in after.buttons <==> b in before.buttons && b !in buttons
    case Press(buttons) => AddsButtons(buttons, before, after)
    case Tap(buttons, _) => AddsButtons(buttons, before, after)
  }

  predicate AddsButtons(buttons: seq<Button>, before: InputState, after: InputState) {
    && after == before.(buttons := after.buttons)
    && forall b: Button :: b in after.buttons <==> b in before.buttons || b in buttons
  }

  /** A list of buttons must not be empty, and a tap lasts at most 24 hours. */
  function Malformed(command: InputCommand): Option<InputError> {
    match command
    case Press(buttons) => if buttons == [] then Some(NoButtons) else None
    case Release(buttons) => if buttons == [] then Some(NoButtons) else None
    case Tap(buttons, duration) =>
      if buttons == [] then Some(NoButtons) else if 86_400_000_000_000 < duration then Some(TapTooLong) else None
    case _ => None
  }

  /** The command ends at once: its caller gets the result, and the worker the fault. */
  predicate EndsWith(p: Progress, o: Outcome, result: CommandResult, fault: Option<WorkerCoreError>) {
    o.progress == p.(commands := p.commands + 1, result := Some(result)) && o.fault == fault
  }

  predicate RejectedWith(c: Core, p: Progress, o: Outcome, error: WorkerCommandError) {
    o.core == c && EndsWith(p, o, Err(error), None)
  }

  /** Any refusal but a rejection is the end of the worker. */
  function Terminating(kind: TransportErrorKind): Option<WorkerCoreError> {
    if kind == SendRejected then None else Some(TransportFailed(kind))
  }

  /** One input report of the state that was asked for. */
  predicate Sends(c: Core, command: InputCommand, now: Duration, outcome: SendOutcome, c': Core) {
    var last := |c.out.wire|;
    && |c'.out.wire| == last + 1 && c'.out.wire[..last] == c.out.wire && c'.out.wire[last].Sent?
    && Asks(command, c.input, c'.out.wire[last].report.state)
    && c'.out.wire[last] == Sent(InputReportOf(c.out.sender, c'.out.wire[last].report.state, now), outcome)
  }

  predicate StaysPending(p: Progress, o: Outcome, firstError: CallResult) {
    && o.core.tap.Some? && o.core.tap.value.firstError == firstError
    && o.progress == p.(commands := p.commands + 1) && o.fault.None?
  }

  /** Periodic: what is asked for is committed without sending, in any lifecycle state. Only a tap needs readiness and
      sends; its press stays committed, and a rejected one leaves the tap pending. */
  predicate PeriodicHandles(c: Core, p: Progress, command: InputCommand, now: Duration, outcome: SendOutcome, o: Outcome) {
    if Malformed(command).Some? then RejectedWith(c, p, o, InputRejected(Malformed(command).value))
    else if !command.Tap? then
      && Asks(command, c.input, o.core.input)
      && o.core == c.(input := o.core.input, out := c.out.(status := c.out.status.(snapshot := o.core.input)))
      && EndsWith(p, o, Ok(()), None)
    else if !c.lifecycle.Ready? then RejectedWith(c, p, o, PeriodicRejected(PeriodicNotReady))
    else
      && Sends(c, command, now, outcome, o.core) && Asks(command, c.input, o.core.input)
      && o.core == c.(input := o.core.input, out := o.core.out, tap := o.core.tap)
      && match outcome
         case Accepted => StaysPending(p, o, None)
         case Refused(kind) =>
           if kind == SendRejected then StaysPending(p, o, Some(kind))
           else
             && o.core.tap == c.tap
             && EndsWith(p, o, Err(PeriodicRejected(PeriodicTransport(kind, None))), Terminating(kind))
  }

  /** Direct: nothing happens before readiness; then what is asked for is sent, and committed only if it is accepted. */
  predicate DirectHandles(c: Core, p: Progress, command: InputCommand, now: Duration, outcome: SendOutcome, o: Outcome) {
    if !c.lifecycle.Ready? then RejectedWith(c, p, o, DirectRejected(DirectNotReady))
    else if Malformed(command).Some? then RejectedWith(c, p, o, InputRejected(Malformed(command).value))
    else
      && Sends(c, command, now, outcome, o.core)
      && o.core == c.(input := o.core.input, out := o.core.out, tap := o.core.tap)
      && match outcome
         case Accepted =>
           && Asks(command, c.input, o.core.input) && o.core.out.status.snapshot == o.core.input
           && (if command.Tap? then StaysPending(p, o, None) else o.core.tap == c.tap && EndsWith(p, o, Ok(()), None))
         case Refused(kind) =>
           && o.core.input == c.input && o.core.tap == c.tap
           && EndsWith(p, o, Err(DirectRejected(DirectTransport(kind))), Terminating(kind))
  }

  predicate Handles(c: Core, p: Progress, command: InputCommand, now: Duration, outcome: SendOutcome, o: Outcome) {
    match InputCommandError(c.lifecycle)
    case Some(error) => RejectedWith(c, p, o, LifecycleRejected(error))
    case None =>
      if c.mode.Periodic? then PeriodicHandles(c, p, command, now, outcome, o)
      else DirectHandles(c, p, command, now, outcome, o)
  }

  lemma CandidatesAreAskedFor(command: InputCommand, current: InputState)
    ensures command.Press? ==> match Pressed(current, command.buttons)
                               case Ok(state) => Malformed(command).None? && Asks(command, current, state)
                               case Err(error) => Malformed(command) == Some(error)
    ensures command.Release? ==> match Released(current, command.buttons)
                                 case Ok(state) => Malformed(command).None? && Asks(command, current, state)
                                 case Err(error) => Malformed(command) == Some(error)
    ensures command.Tap? ==> match Plan(current, command.buttons, command.duration)
                             case Ok(plan) => Malformed(command).None? && Asks(command, current, plan.pressed)
                             case Err(error) => Malformed(command) == Some(error)
  {
  }

  lemma PeriodicCommandsAreHandled(c: Core, p: Progress, command: InputCommand, now: Duration, outcome: SendOutcome)
    requires c.mode.Periodic? && InputCommandError(c.lifecycle).None?
    ensures PeriodicHandles(c, p, command, now, outcome, InputStep(c, p, command, now, outcome))
  {
    hide Asks, Malformed, Pressed, Released, Plan;
    CandidatesAreAskedFor(command, c.input);
    AskedOutright(command, c.input);
  }

  lemma DirectCommandsAreHandled(c: Core, p: Progress, command: InputCommand, now: Duration, outcome: SendOutcome)
    requires c.mode.Direct? && InputCommandError(c.lifecycle).None?
    ensures DirectHandles(c, p, command, now, outcome, InputStep(c, p, command, now, outcome))
  {
    hide Asks, Malformed, Pressed, Released, Plan;
    CandidatesAreAskedFor(command, c.input);
    AskedOutright(command, c.input);
  }

  lemma AskedOutright(command: InputCommand, current: InputState)
    ensures command.Candidate? ==> Malformed(command).None? && Asks(command, current, command.state)
    ensures command.Neutral? ==> Malformed(command).None? && Asks(command, current, NEUTRAL)
  {
  }

  /** Every input command, in every state of either mode. */
  lemma CommandsAreHandled(c: Core, p: Progress, command: InputCommand, now: Duration, outcome: SendOutcome)
    ensures Handles(c, p, command, now, outcome, InputStep(c, p, command, now, outcome))
  {
    hide PeriodicHandles, DirectHandles;
    if InputCommandError(c.lifecycle).None? {
      if c.mode.Periodic? {
        PeriodicCommandsAreHandled(c, p, command, now, outcome);
      } else {
        DirectCommandsAreHandled(c, p, command, now, outcome);
      }
    }
  }

  /** In every run of a new worker, whose lifecycle takes input commands as long as it takes any. */
  lemma EveryCommandIsHandled(r: Run, i: nat)
    requires FreshRun(r) && i < |r.actions| && r.actions[i].Input?
    ensures var w, a, w' := r.worlds[i], r.actions[i], r.worlds[i + 1];
            var o := Outcome(w'.core, w'.progress, w'.fault);
            if w.core.mode.Periodic? then PeriodicHandles(w.core, FRESH, a.command, a.now, a.outcome, o)
            else DirectHandles(w.core, FRESH, a.command, a.now, a.outcome, o)
  {
    hide PeriodicHandles, DirectHandles, WorldInv, Perform;
    var w, a := r.worlds[i], r.actions[i];
    assert Leads(w, a, r.worlds[i + 1]);
    FreshRunKeepsWorldInv(r, i);
    InputLands(w, a);
    CommandsAreHandled(w.core, FRESH, a.command, a.now, a.outcome);
  }

  lemma InputLands(w: World, a: Action)
    requires WorldInv(w) && Enabled(w, a) && a.Input?
    ensures var w' := Perform(w, a);
            && Outcome(w'.core, w'.progress, w'.fault) == InputStep(w.core, FRESH, a.command, a.now, a.outcome)
            && InputCommandError(w.core.lifecycle).None?
  {
    hide InputStep;
  }

  // ---- Nothing else changes the input ----

  lemma EndingsKeepInput(w: World, a: Action)
    requires Enabled(w, a) && Ending(a)
    ensures Perform(w, a).core.input == w.core.input
  {
    hide CloseWorker, FailWorker, CleanUpAfterFailure;
    match a
    case Shutdown(request, now, answers) =>
      TapRuns.EndingsKeepPressedInput(w.core, w.progress, request, InvalidLifecycle, now, answers);
    case CleanUpFailed(now, answers) =>
      TapRuns.EndingsKeepPressedInput(w.core, w.progress, DroppedShutdown, InvalidLifecycle, now, answers);
    case Fail =>
      if w.fault.Some? {
        TapRuns.EndingsKeepPressedInput(w.core, w.progress, DroppedShutdown, w.fault.value, w.time,
                                        Cleanup.CleanupAnswers(Accepted, None, None, None));
      }
    case _ =>
  }

  lemma WorkKeepsInput(w: World, a: Action)
    requires WorldInv(w) && Enabled(w, a) && !Ending(a) && !a.Input?
    ensures Perform(w, a).core.input == if BeginsSession(w, a) then NEUTRAL
                                        else if a.Due? && TapDue(w.core, a.now) then Perform(w, a).core.input
                                        else w.core.input
  {
    hide Drive, HandleEvent, ConnectCommand, RunDue, Live;
    match a
    case Connect(kind, timeout, error, now) =>
      Effects.ConnectEffect(w.core, w.progress, kind, timeout, error, now);
    case Event(now, outcome) =>
      if w.phase.events[0].Some? {
        TapRuns.EventsKeepPressedInput(w.core, w.progress, w.phase.events[0].value, now, outcome);
      }
    case DriveConnection(now, outcome) => var _ := Effects.DriveEffect(w.core, w.progress, now, outcome);
    case Due(now, capacity, outcome) => TapRuns.DueReleases(w.core, w.progress, now, capacity, outcome);
    case _ =>
  }

  /** The committed input is what the commands left: beside them only a new session, which starts from neutral input, and
      the release of a tap that is due change it. */
  lemma OnlyCommandsChangeInput(r: Run, i: nat)
    requires FreshRun(r) && i < |r.actions| && !r.actions[i].Input?
    requires !(r.actions[i].Due? && TapDue(r.worlds[i].core, r.actions[i].now))
    ensures r.worlds[i + 1].core.input
         == if BeginsSession(r.worlds[i], r.actions[i]) then NEUTRAL else r.worlds[i].core.input
  {
    hide WorldInv, Perform, Enabled, TapDue;
    var w, a := r.worlds[i], r.actions[i];
    assert Leads(w, a, r.worlds[i + 1]);
    FreshRunKeepsWorldInv(r, i);
    if Ending(a) {
      EndingsKeepInput(w, a);
    } else {
      WorkKeepsInput(w, a);
    }
  }
}
