/** Runs of the worker: the order in which a step performs its actions, and what the loop does between steps
    (`src/runtime/worker.rs`, `src/runtime/worker_thread.rs`). */
module Runs {
  import opened Types
  import Clock
  import opened Cleanup
  import opened Command
  import opened Machine
  import opened Session
  import opened Transport

  /** Where a step is. A batch keeps the tags its events got when it was polled. */
  datatype Phase =
    | Idle
    | Started
    | Commanded
    | Polling(batch: nat)
    | Handling(batch: nat, events: seq<Option<SessionEvent>>)
    | Topology(batch: nat, events: seq<Option<SessionEvent>>)
    | LastDrive
    | DueCheck
    | Finishing
    | Delivering
    | Stopping
    | Broken
    | Abandoned
    | ClosedDown
    | CleanedUp

  /** An action with the answers it got: transport outcomes, clock readings, a command, a shutdown request. */
  datatype Action =
    | StepBegins
    | NoCommand
    | Connect(kind: ConnectionCommandKind, timeout: Duration, error: CallResult, now: Duration)
    | Input(command: InputCommand, now: Duration, outcome: SendOutcome)
    | Settle
    | Poll(events: Result<seq<TransportEvent>, TransportErrorKind>)
    | Event(now: Duration, outcome: SendOutcome)
    | EndBatch
    | DriveConnection(now: Duration, outcome: SendOutcome)
    | Due(now: Duration, capacity: bool, outcome: SendOutcome)
    | Finish
    | Deliver
    | Wait(now: Duration)
    | WaitFails
    | Shutdown(request: ShutdownRequest, now: Duration, answers: CleanupAnswers)
    | Fail
    | CleanUpFailed(now: Duration, answers: CleanupAnswers)

  /** A worker in the middle of a run. `slotEmpty` and `drained` remember that this step found the command slot
      empty and that its last poll returned nothing, `driven` when it last drove the connection, and `interrupted` holds
      the answer of a tap that was closed. `checks` counts the times at which the worker has to look for a shutdown. */
  datatype World = World(core: Core, progress: Progress, fault: Option<WorkerCoreError>, phase: Phase,
                         time: Duration, driven: Duration, budget: nat, slotEmpty: bool, drained: bool,
                         channel: Channel, interrupted: Option<WorkerCommandError>, checks: nat)

  /** A shutdown is looked for when a step begins, after its command, after every event and every drive, after due work,
      and after a failed poll. */
  predicate NeedsCheck(a: Action) {
    a.StepBegins? || a.Connect? || a.Input? || a.Event? || a.DriveConnection? || a.Due? || (a.Poll? && a.events.Err?)
  }

  /** The command an action handles. */
  function CommandOf(a: Action): RuntimeCommand
    requires a.Connect? || a.Input?
  {
    match a
    case Connect(PairCommand, timeout, _, _) => Pair(timeout)
    case Connect(ReconnectCommand, timeout, _, _) => Reconnect(timeout)
    case Input(command, _, _) => InputCommand(command)
  }

  function Reading(a: Action, otherwise: Duration): Duration {
    match a
    case Connect(_, _, _, now) => now
    case Input(_, now, _) => now
    case Event(now, _) => now
    case DriveConnection(now, _) => now
    case Due(now, _, _) => now
    case Shutdown(_, now, _) => now
    case CleanUpFailed(now, _) => now
    case Wait(now) => now
    case _ => otherwise
  }

  /** The phases in which a step is under way. */
  predicate InStep(phase: Phase) {
    !phase.Idle? && !phase.Delivering? && !phase.Broken? && !phase.Abandoned? && !phase.ClosedDown? && !phase.CleanedUp?
  }

  /** The order of a step, and a clock that never goes back. */
  predicate Enabled(w: World, a: Action) {
    && w.time <= Reading(a, w.time)
    && match a
       case StepBegins => w.phase.Idle?
       case NoCommand => w.phase.Started? && !w.core.HasPending()
       case Connect(_, _, _, _) => w.phase.Started? && !w.core.HasPending()
       case Input(_, _, _) => w.phase.Started? && !w.core.HasPending()
       case Settle => w.phase.Commanded? || (w.phase.Started? && w.core.HasPending())
       case Poll(_) => w.phase.Polling?
       case Event(_, _) => w.phase.Handling? && w.phase.events != []
       case EndBatch => w.phase.Handling? && w.phase.events == []
       case DriveConnection(_, _) => w.phase.Topology? || w.phase.LastDrive?
       case Due(_, _, _) => w.phase.DueCheck? && DueAllowed(w.core)
       case Finish => w.phase.Finishing? || (w.phase.DueCheck? && !DueAllowed(w.core))
       case Deliver => w.phase.Delivering?
       case Wait(_) => w.phase.Idle?
       case WaitFails => w.phase.Idle?
       case Shutdown(_, _, _) => InStep(w.phase)
       case Fail => w.phase.Stopping?
       case CleanUpFailed(_, _) => w.phase.Broken? || w.phase.Abandoned?
  }

  function Land(w: World, o: Outcome, phase: Phase): World {
    w.(core := o.core, progress := o.progress, fault := o.fault,
       phase := if o.fault.Some? then Stopping else phase)
  }

  function Tag(c: Core, events: seq<TransportEvent>): (tagged: seq<Option<SessionEvent>>)
    ensures |tagged| == |events|
    ensures forall i :: 0 <= i < |events| ==>
              tagged[i] == if c.sessions.current.Some? then Some(SessionEvent(c.sessions.current.value, events[i])) else None
  {
    seq(|events|, i requires 0 <= i < |events| =>
      if c.sessions.current.Some? then Some(SessionEvent(c.sessions.current.value, events[i])) else None)
  }

  function PerformPoll(w: World, events: Result<seq<TransportEvent>, TransportErrorKind>): World
    requires w.phase.Polling?
  {
    var polled := WithCall(w.core, Polled(events));
    match events
    case Err(kind) => Land(w, Outcome(polled, w.progress, Some(TransportFailed(kind))), Stopping)
    case Ok(batch) =>
      Land(w.(drained := batch == []), Outcome(polled, w.progress, None),
           if batch == [] then LastDrive else Handling(w.phase.batch, Tag(w.core, batch)))
  }

  function PerformEvent(w: World, now: Duration, outcome: SendOutcome): World
    requires w.phase.Handling? && w.phase.events != []
  {
    var rest := w.phase.events[1..];
    match w.phase.events[0]
    case None => w.(phase := Handling(w.phase.batch, rest))
    case Some(event) =>
      Land(w, HandleEvent(w.core, w.progress, event, now, outcome),
           if ChangesTopology(w.core, event) then Topology(w.phase.batch, rest) else Handling(w.phase.batch, rest))
  }

  function PerformEndBatch(w: World): World {
    if !w.phase.Handling? then w
    else if w.phase.batch + 1 < w.budget then w.(phase := Polling(w.phase.batch + 1))
    else w.(phase := LastDrive, progress := w.progress.(immediate := true))
  }

  ghost function PerformDrive(w: World, now: Duration, outcome: SendOutcome): World
    requires w.phase.Topology? || w.phase.LastDrive?
  {
    Land(w.(driven := now), Drive(w.core, w.progress, now, outcome),
         if w.phase.Topology? then Handling(w.phase.batch, w.phase.events) else DueCheck)
  }

  function PerformFail(w: World): World {
    if w.fault.None? then w
    else
      var (c, p) := FailWorker(w.core, w.progress, w.fault.value);
      w.(core := c, progress := p, phase := Broken)
  }

  /** The actions that touch neither the worker nor the transport. */
  function Quietly(w: World, a: Action): World {
    match a
    case StepBegins =>
      w.(progress := FRESH, phase := Started, slotEmpty := false, drained := false, checks := w.checks + 1)
    case NoCommand => w.(phase := Commanded, slotEmpty := true)
    case Settle => w.(progress := SettleCommand(w.core, w.progress), phase := Polling(0))
    case EndBatch => PerformEndBatch(w)
    case Finish =>
      w.(phase := Delivering,
         progress := w.progress.(nextDeadline := Clock.MinimumDeadline(w.progress.nextDeadline, NextDeadline(w.core))))
    case Deliver =>
      w.(phase := Idle, channel := w.channel.Answer(w.progress.result), progress := w.progress.(result := None))
    case _ => w
  }

  /** An action out of order does nothing. */
  ghost function Perform(w: World, a: Action): World {
    if !Enabled(w, a) then w else PerformEnabled(w, a)
  }

  ghost function PerformEnabled(w: World, a: Action): World
    requires Enabled(w, a)
  {
    var timed := w.(time := Reading(a, w.time), checks := w.checks + if NeedsCheck(a) then 1 else 0);
    match a
    case Connect(kind, timeout, error, now) =>
      Land(timed.(channel := w.channel.Take(CommandOf(a))),
           ConnectCommand(w.core, w.progress, kind, timeout, error, now), Commanded)
    case Input(command, now, outcome) =>
      Land(timed.(channel := w.channel.Take(CommandOf(a))), InputStep(w.core, w.progress, command, now, outcome), Commanded)
    case Poll(events) => PerformPoll(timed, events)
    case Event(now, outcome) => PerformEvent(timed, now, outcome)
    case DriveConnection(now, outcome) => PerformDrive(timed, now, outcome)
    case Due(now, capacity, outcome) => Land(timed, RunDue(w.core, w.progress, now, capacity, outcome), Finishing)
    case Wait(_) => timed
    case WaitFails => timed.(core := Abandon(w.core), phase := Abandoned)
    case Shutdown(request, now, answers) =>
      var (c, p) := CloseWorker(w.core, w.progress, request, now, answers);
      timed.(core := c, progress := p, phase := ClosedDown, interrupted := InterruptedTap(w.core))
    case Fail => PerformFail(timed)
    case CleanUpFailed(now, answers) => timed.(core := CleanUpAfterFailure(w.core, now, answers), phase := CleanedUp)
    case _ => Quietly(w, a)
  }

  /** A run: the worlds it went through and the actions between them. */
  datatype Run = Run(worlds: seq<World>, actions: seq<Action>) {
    ghost predicate Valid() {
      && |worlds| == |actions| + 1
      && forall i :: 0 <= i < |actions| ==> Leads(worlds[i], actions[i], worlds[i + 1])
    }

    function Last(): World
      requires worlds != []
    {
      worlds[|worlds| - 1]
    }

    function Then(a: Action, w: World): Run {
      Run(worlds + [w], actions + [a])
    }

    predicate Extends(earlier: Run) {
      earlier.worlds <= worlds && earlier.actions <= actions
    }
  }

  ghost predicate Leads(w: World, a: Action, w': World) {
    Enabled(w, a) && w' == Perform(w, a)
  }

  function NewWorld(mode: Mode, period: Period, budget: nat): World {
    World(NewCore(mode, period), FRESH, None, Idle, 0, 0, budget, false, false,
          Channel(false, [], []), None, 0)
  }
}
