/** The worker loop: step, deliver, wait, and the cleanup that ends it (`src/runtime/worker_thread.rs`). */
module WorkerThread {
  import opened Types
  import opened Clock
  import opened Cleanup
  import opened Command
  import Invariant
  import M = Machine
  import Runs
  import Endings
  import Responses
  import Status
  import opened Transport
  import opened Waiting
  import Wire
  import opened Worker
  import WorldInvariant

  datatype FailureCause = CoreFailed(error: WorkerCoreError) | WaitFailed

  datatype WorkerTerminal =
    | ClosedTerminal(completion: CloseCompletion)
    | FailedTerminal(cause: FailureCause, cleanupError: Option<CleanupFailure>)

  datatype WorkerCompletion = WorkerCompletion(terminal: WorkerTerminal, deliveryError: Option<DeliveryError>)

  function CauseMessage(cause: FailureCause): Status.FailureMessage {
    match cause
    case CoreFailed(error) => M.FailureMessage(error)
    case WaitFailed => Status.LoopFailed
  }

  /** Another thread may have queued a command since the last step; the slot holds one. */
  method CommandsArrive(commands: CommandReceiver, id: nat) returns (next: nat)
    requires commands.Valid()
    modifies commands`queue
    ensures commands.Valid()
    ensures next == if commands.queue == old(commands.queue) then id else id + 1
  {
    next := id;
    var arrives: bool := *;
    if arrives {
      var command: RuntimeCommand := *;
      var error := commands.TryEnqueue(CommandRequest(command, id));
      if error.None? {
        next := id + 1;
      }
    }
  }

  /** Another thread may have asked for a shutdown since the last step. */
  method ShutdownArrives(shutdown: PriorityShutdown, ghost t: Runs.Run)
    requires WorkerCore.Synced(shutdown, t)
    modifies shutdown
    ensures WorkerCore.Synced(shutdown, t)
  {
    var arrives: bool := *;
    if arrives {
      var request: M.ShutdownRequest := *;
      var _ := shutdown.Request(request);
    }
  }

  /** The loop fails on the fault of a step, or when nothing could wake it any more. */
  ghost predicate Failing(w: Runs.World, cause: FailureCause) {
    match cause
    case CoreFailed(error) => w.phase.Broken? && w.fault == Some(error)
    case WaitFailed => w.phase.Idle?
  }

  /** As `Failing`, once the failure is published. */
  ghost predicate Broken(w: Runs.World, cause: FailureCause) {
    match cause
    case CoreFailed(error) => w.phase.Broken? && w.fault == Some(error)
    case WaitFailed => w.phase.Abandoned?
  }

  /** Publishes why the loop failed; the failure a failed step has already published stays. */
  method PublishFailure(worker: WorkerCore, cause: FailureCause, p: M.Progress, now: Duration, ghost t: Runs.Run)
    returns (ghost t': Runs.Run)
    requires worker.Valid() && worker.At(t, p, now)
    requires Failing(t.Last(), cause)
    modifies worker.status
    ensures worker.Valid() && worker.At(t', p, now) && t'.Extends(t)
    ensures Broken(t'.Last(), cause) && t'.Last().checks == t.Last().checks
    ensures Responses.LastAnswers(t'.Last()) == Responses.LastAnswers(t.Last())
    ensures t'.Last().channel == t.Last().channel
  {
    hide WorldInvariant.Sound;
    if cause.CoreFailed? {
      BrokenIsPublished(t);
    }
    t' := t;
    worker.PublishFailure(CauseMessage(cause));
    if cause.WaitFailed? {
      t' := WorldInvariant.GoAbandon(t);
    }
  }

  lemma BrokenIsPublished(t: Runs.Run)
    requires t.worlds != [] && WorldInvariant.Sound(t) && t.Last().phase.Broken?
    ensures t.Last().core.out.status.failure.Some?
  {
  }

  /** Cleans up without a neutral report after a failure. */
  method CleanUpBroken(worker: WorkerCore, ghost cause: FailureCause, ghost p: M.Progress, since: Duration,
                       ghost t: Runs.Run)
    returns (cleanupError: Option<CleanupFailure>, ghost t': Runs.Run)
    requires worker.Valid() && worker.At(t, p, since) && Broken(t.Last(), cause)
    modifies worker.Parts(), worker.Owned
    ensures t'.Extends(t) && WorldInvariant.Sound(t') && EndedWith(FailedTerminal(cause, cleanupError), t')
    ensures t'.Last().channel == t.Last().channel && t'.Last().checks == t.Last().checks
    ensures t'.Last().progress == t.Last().progress && t'.Last().phase.CleanedUp?
    ensures worker.port.trace == t'.Last().core.out.wire
  {
    hide WorldInvariant.Sound, M.CleanUpAfterFailure, M.CleanupCompletion;
    var now := ReadClock(since);
    var completion;
    ghost var answers;
    completion, answers := worker.CleanUpAfterFailure(now);
    t' := WorldInvariant.GoCleanUp(t, now, answers);
    WorkerCore.RunLengths(t);
    cleanupError := completion.firstFailure;
  }

  /** Publishes the failure and cleans up. */
  method CompleteWorkerFailure(worker: WorkerCore, cause: FailureCause, p: M.Progress, since: Duration, ghost t: Runs.Run)
    returns (cleanupError: Option<CleanupFailure>, ghost t': Runs.Run)
    requires worker.Valid() && worker.At(t, p, since) && Failing(t.Last(), cause)
    modifies worker.Parts(), worker.Owned
    ensures t'.Extends(t) && WorldInvariant.Sound(t') && EndedWith(FailedTerminal(cause, cleanupError), t')
    ensures t'.Last().channel == t.Last().channel && t'.Last().checks == t.Last().checks
    ensures Responses.LastAnswers(t'.Last()) == Responses.LastAnswers(t.Last()) && t'.Last().phase.CleanedUp?
    ensures worker.port.trace == t'.Last().core.out.wire
  {
    hide WorldInvariant.Sound, Responses.LastAnswers, EndedWith;
    t' := PublishFailure(worker, cause, p, since, t);
    ghost var broken := t';
    cleanupError, t' := CleanUpBroken(worker, cause, p, since, t');
    CleanUpAnswersNobody(broken, t');
  }

  lemma CleanUpAnswersNobody(t: Runs.Run, t': Runs.Run)
    requires t.worlds != [] && t'.worlds != []
    requires !t.Last().phase.ClosedDown? && t'.Last().phase.CleanedUp? && t'.Last().progress == t.Last().progress
    ensures Responses.LastAnswers(t'.Last()) == Responses.LastAnswers(t.Last())
  {
  }

  /** The completion of the loop tells how its run ended: which error or lost source ended it, and the failure its
      cleanup kept. */
  ghost predicate EndedWith(terminal: WorkerTerminal, t: Runs.Run) {
    && 0 < |t.actions| && |t.worlds| == |t.actions| + 1
    && match terminal
       case ClosedTerminal(completion) => t.Last().phase.ClosedDown? && WorkerCore.ClosedWith(completion, t)
       case FailedTerminal(cause, cleanupError) =>
         var before, last := t.worlds[|t.actions| - 1], t.actions[|t.actions| - 1];
         && Broken(before, cause) && last.CleanUpFailed? && t.Last().phase.CleanedUp?
         && cleanupError == M.CleanupCompletion(before.core, ClosePlan(WithoutNeutral), last.answers).firstFailure
  }

  /** The callers of the commands taken so far have been answered, in order, with the results of the run's steps, the
      last of them with what the run ended on. */
  ghost predicate Answered(commands: CommandReceiver, t: Runs.Run)
    reads commands
    requires t.worlds != []
  {
    && commands.taken == t.Last().channel.taken
    && Results(commands.delivered) == t.Last().channel.answered + Responses.LastAnswers(t.Last())
  }

  /** How a loop that has ended left the run, the transport and the command channel: nothing was delivered without a
      response in flight, and a closed worker has answered every command it took. */
  ghost predicate Completed(completion: WorkerCompletion, commands: CommandReceiver, port: TransportPort, t: Runs.Run)
    reads commands, port
  {
    && completion.deliveryError.None? && commands.Valid()
    && t.worlds != [] && WorldInvariant.Sound(t) && port.trace == t.Last().core.out.wire
    && EndedWith(completion.terminal, t) && Answered(commands, t)
    && (completion.terminal.ClosedTerminal? ==> commands.dequeued == Ids(commands.delivered))
  }

  lemma DeliveryFacts(t: Runs.Run)
    requires t.worlds != [] && WorldInvariant.Sound(t)
    ensures t.Last().phase.Delivering? || t.Last().phase.ClosedDown? || t.Last().phase.Broken? ==>
              (t.Last().progress.result.Some? ==> t.Last().channel.inFlight)
    ensures t.Last().phase.ClosedDown? ==>
              && (t.Last().channel.inFlight <==> t.Last().progress.result.Some? || t.Last().interrupted.Some?)
              && (t.Last().interrupted.Some? ==> t.Last().progress.result.None?)
    ensures t.Last().phase.Idle? ==> t.Last().progress.result.None?
  {
  }

  /** The result of a step, and then the answer of a tap that shutdown interrupted. */
  method DeliverLast(result: Option<CommandResult>, interrupted: Option<WorkerCommandError>, commands: CommandReceiver)
    returns (error: Option<DeliveryError>)
    requires commands.Valid() && (interrupted.Some? ==> result.None?)
    requires commands.inFlight.Some? <==> result.Some? || interrupted.Some?
    modifies commands
    ensures error.None? && commands.Valid() && commands.inFlight.None?
    ensures commands.State() == old(commands.State()).Answer(
              if interrupted.Some? then Some(Err(interrupted.value)) else result)
  {
    error := commands.DeliverProgress(result);
    if error.None? && interrupted.Some? {
      error := commands.DeliverCompletion(Err(interrupted.value));
    }
  }

  method DeliverClosed(worker: WorkerCore, completion: CloseCompletion, interrupted: Option<WorkerCommandError>,
                       p: M.Progress, now: Duration, commands: CommandReceiver, ghost t: Runs.Run)
    returns (done: WorkerCompletion)
    requires worker.Valid() && worker.Concluded(ClosedStep(completion, interrupted, p), t, now)
    requires worker.Linked(commands, t)
    modifies commands
    ensures Completed(done, commands, worker.port, t) && done.terminal == ClosedTerminal(completion)
  {
    hide WorldInvariant.Sound, WorkerCore.ClosedWith;
    DeliveryFacts(t);
    ClosedHasEnded(completion, t);
    var deliveryError := DeliverLast(p.result, interrupted, commands);
    done := WorkerCompletion(ClosedTerminal(completion), deliveryError);
  }

  lemma ClosedHasEnded(completion: CloseCompletion, t: Runs.Run)
    requires WorkerCore.ClosedWith(completion, t) && t.Last().phase.ClosedDown?
    ensures EndedWith(ClosedTerminal(completion), t)
  {
  }

  /** A failed step delivers its result; a failed wait has none. */
  method DeliverFailed(cause: FailureCause, p: M.Progress, commands: CommandReceiver, ghost t: Runs.Run)
    returns (error: Option<DeliveryError>)
    requires t.worlds != [] && WorldInvariant.Sound(t) && t.Last().progress == p && Failing(t.Last(), cause)
    requires commands.Valid() && commands.State() == t.Last().channel
    modifies commands
    ensures error.None? && commands.Valid() && Answered(commands, t)
  {
    hide WorldInvariant.Sound, CommandReceiver.Valid;
    DeliveryFacts(t);
    error := None;
    if cause.CoreFailed? {
      error := commands.DeliverProgress(p.result);
    }
  }

  method FailLoop(worker: WorkerCore, cause: FailureCause, p: M.Progress, commands: CommandReceiver, since: Duration,
                  ghost t: Runs.Run)
    returns (done: WorkerCompletion, ghost t': Runs.Run)
    requires worker.Valid() && worker.At(t, p, since) && worker.Linked(commands, t) && commands !in worker.Owned
    requires Failing(t.Last(), cause)
    modifies worker.Parts(), worker.Owned, commands
    ensures Completed(done, commands, worker.port, t') && done.terminal.FailedTerminal? && done.terminal.cause == cause
    ensures t'.Extends(t) && t'.Last().phase.CleanedUp? && t'.Last().checks == t.Last().checks
  {
    hide WorldInvariant.Sound, CommandReceiver.Valid, Responses.LastAnswers, M.CleanupCompletion;
    var deliveryError := DeliverFailed(cause, p, commands, t);
    var cleanupError;
    cleanupError, t' := CompleteWorkerFailure(worker, cause, p, since, t);
    done := WorkerCompletion(FailedTerminal(cause, cleanupError), deliveryError);
  }

  method FailStep(worker: WorkerCore, error: WorkerCoreError, p: M.Progress, commands: CommandReceiver, since: Duration,
                  ghost t: Runs.Run)
    returns (done: WorkerCompletion, ghost t': Runs.Run)
    requires worker.Valid() && worker.Concluded(FailedStep(error, p), t, since)
    requires worker.Linked(commands, t) && commands !in worker.Owned
    modifies worker.Parts(), worker.Owned, commands
    ensures Completed(done, commands, worker.port, t') && t.Last().phase.Broken? && t'.Last().phase.CleanedUp?
    ensures done.terminal.FailedTerminal? && done.terminal.cause == CoreFailed(error)
    ensures t'.Extends(t) && t'.Last().checks == t.Last().checks
  {
    hide WorldInvariant.Sound, Completed;
    done, t' := FailLoop(worker, CoreFailed(error), p, commands, since, t);
  }

  lemma FinishDelivery(worker: WorkerCore, p: M.Progress, now: Duration, t: Runs.Run) returns (t': Runs.Run)
    requires worker.Valid() && worker.At(t, p, now) && t.Last().phase.Delivering?
    ensures worker.At(t', p.(result := None), now) && t'.Last().phase.Idle? && t'.Extends(t)
    ensures t'.Last().channel == t.Last().channel.Answer(p.result) && t'.Last().checks == t.Last().checks
  {
    hide WorldInvariant.Sound;
    t' := WorldInvariant.GoQuietly(t, Runs.Deliver);
  }

  /** Delivers a continuing step's result. A missing response would end the loop; there is none. */
  method DeliverContinued(worker: WorkerCore, p: M.Progress, commands: CommandReceiver, now: Duration, ghost t: Runs.Run)
    returns (p': M.Progress, ghost t': Runs.Run)
    requires worker.Valid() && worker.Concluded(Continue(p), t, now) && worker.Linked(commands, t)
    modifies commands
    ensures worker.Valid() && worker.At(t', p', now) && worker.Linked(commands, t')
    ensures t.Last().phase.Delivering? && t'.Last().phase.Idle?
    ensures t'.Extends(t) && p' == p.(result := None) && t'.Last().checks == t.Last().checks
    ensures commands.State() == old(commands.State()).Answer(p.result)
  {
    hide WorldInvariant.Sound, CommandReceiver.Valid;
    DeliveryFacts(t);
    var error := commands.DeliverProgress(p.result);
    assert error.None?;
    p' := p.(result := None);
    t' := FinishDelivery(worker, p, now, t);
  }

  /** The close that ended a run left the trace that this request asks of a worker with this value. */
  ghost predicate ClosedAs(before: M.Core, request: M.ShutdownRequest, t: Runs.Run) {
    && t.worlds != [] && t.actions != [] && t.actions[|t.actions| - 1].Shutdown?
    && var last := t.actions[|t.actions| - 1];
       Endings.ClosesAs(before, request, last.now, last.answers, t.Last().core.out.wire)
  }

  /** Every close leaves the trace that its request asks for. */
  lemma ClosedRunsCloseAsAsked(request: M.ShutdownRequest, t: Runs.Run)
    requires WorldInvariant.Sound(t) && WorkerCore.ClosedOn(request, t)
    ensures ClosedAs(t.worlds[|t.actions| - 1].core, request, t)
  {
    hide Runs.Enabled, Runs.Perform, Endings.ClosesAs, WorldInvariant.WorldInv;
    var last := |t.actions| - 1;
    WorldInvariant.RunKeepsWorldInv(t, last);
    assert Runs.Leads(t.worlds[last], t.actions[last], t.worlds[last + 1]);
    Endings.ShutdownClosesAs(t.worlds[last], t.actions[last]);
  }

  /** A step that closes before it does anything else closes on the worker's value before the step. */
  lemma ClosingAtOnceClosesAsAsked(request: M.ShutdownRequest, t: Runs.Run, t': Runs.Run)
    requires WorldInvariant.Sound(t) && t.Last().phase.Idle?
    requires WorldInvariant.Sound(t') && t'.Extends(t) && |t'.actions| == |t.actions| + 2
    requires WorkerCore.ClosedOn(request, t')
    ensures ClosedAs(t.Last().core, request, t')
  {
    hide Endings.ClosesAs, WorldInvariant.WorldInv;
    ClosedRunsCloseAsAsked(request, t');
    var first := |t.actions|;
    assert t'.worlds[first] == t.Last();
    assert Runs.Leads(t'.worlds[first], t'.actions[first], t'.worlds[first + 1]);
    assert Runs.Leads(t'.worlds[first + 1], t'.actions[first + 1], t'.worlds[first + 2]);
    OnlyStepsClose(t'.worlds[first], t'.actions[first], t'.actions[first + 1]);
  }

  lemma OnlyStepsClose(w: Runs.World, a: Runs.Action, next: Runs.Action)
    requires Runs.Enabled(w, a) && w.phase.Idle? && next.Shutdown? && Runs.Enabled(Runs.Perform(w, a), next)
    ensures Runs.Perform(w, a).core == w.core
  {
  }

  /** One turn of the loop. A shutdown that is already requested closes the worker before anything else, as asked. */
  method Turn(worker: WorkerCore, shutdown: PriorityShutdown, commands: CommandReceiver, waiter: ChannelWorkerWaiter,
              ghost p: M.Progress, since: Duration, ghost t: Runs.Run)
    returns (done: Option<WorkerCompletion>, ghost p': M.Progress, now: Duration, ghost t': Runs.Run)
    requires worker.Valid() && worker.At(t, p, since) && t.Last().phase.Idle? && worker.Linked(commands, t)
    requires shutdown !in worker.Owned && commands !in worker.Owned && waiter.receiver !in worker.Owned
    requires WorkerCore.Synced(shutdown, t)
    modifies worker.Parts(), worker.Owned, shutdown, commands, waiter.receiver
    ensures t'.Extends(t) && WorkerCore.Synced(shutdown, t')
    ensures done.Some? ==> Completed(done.value, commands, worker.port, t')
    ensures done.None? ==> worker.Valid() && worker.At(t', p', now) && t'.Last().phase.Idle? && worker.Linked(commands, t')
    ensures done.None? ==> fresh(worker.Owned - old(worker.Owned))
    ensures old(shutdown.state).Requested? ==>
              && done.Some? && done.value.terminal.ClosedTerminal?
              && ClosedAs(old(worker.Value()), old(shutdown.state).request, t')
  {
    hide WorldInvariant.Sound, Completed, ClosedAs, WorkerCore.Concluded;
    var step;
    ghost var started;
    step, now, t', started := worker.StepRuntime(shutdown, commands, p, since, t);
    done, p', now, t' := Conclude(worker, step, shutdown, commands, waiter, now, t');
    if old(shutdown.state).Requested? {
      CompletedFacts(done.value, commands, worker.port, t');
      ClosingAtOnceClosesAsAsked(old(shutdown.state).request, t, t');
    }
  }

  /** What the loop does with a step: delivers its result, and then waits, or ends on a close or a failure. */
  method Conclude(worker: WorkerCore, step: WorkerStep, shutdown: PriorityShutdown, commands: CommandReceiver,
                  waiter: ChannelWorkerWaiter, since: Duration, ghost t: Runs.Run)
    returns (done: Option<WorkerCompletion>, ghost p': M.Progress, now: Duration, ghost t': Runs.Run)
    requires worker.Valid() && worker.Concluded(step, t, since) && worker.Linked(commands, t)
    requires shutdown !in worker.Owned && commands !in worker.Owned && waiter.receiver !in worker.Owned
    requires WorkerCore.Synced(shutdown, t)
    modifies worker.Parts(), worker.Owned, commands, waiter.receiver
    ensures t'.Extends(t) && WorkerCore.Synced(shutdown, t')
    ensures done.Some? ==> Completed(done.value, commands, worker.port, t')
    ensures step.ClosedStep? ==> done.Some? && done.value.terminal == ClosedTerminal(step.completion) && t' == t
    ensures step.Continue? ==> Waited(step.progress, since, now, old(waiter.receiver.waits), waiter.receiver.waits)
    ensures done.None? ==> worker.Valid() && worker.At(t', p', now) && t'.Last().phase.Idle? && worker.Linked(commands, t')
    ensures done.None? ==> worker.Owned == old(worker.Owned)
  {
    hide WorldInvariant.Sound, Completed, WorkerCore.Concluded;
    t', now, p' := t, since, step.progress;
    match step {
      case Continue(progress) =>
        var delivered;
        delivered, t' := DeliverContinued(worker, progress, commands, now, t);
        done, p', now, t' := WaitOrFail(worker, delivered, commands, waiter, now, t');
      case ClosedStep(completion, interrupted, progress) =>
        var closed := DeliverClosed(worker, completion, interrupted, progress, now, commands, t);
        done := Some(closed);
      case FailedStep(error, progress) =>
        var failed;
        failed, t' := FailStep(worker, error, progress, commands, now, t);
        done := Some(failed);
    }
  }

  lemma CompletedFacts(done: WorkerCompletion, commands: CommandReceiver, port: TransportPort, t: Runs.Run)
    requires Completed(done, commands, port, t)
    ensures t.worlds != [] && WorldInvariant.Sound(t) && port.trace == t.Last().core.out.wire
  {
  }

  method WaitOrFail(worker: WorkerCore, p: M.Progress, commands: CommandReceiver, waiter: ChannelWorkerWaiter,
                    since: Duration, ghost t: Runs.Run)
    returns (done: Option<WorkerCompletion>, ghost p': M.Progress, now: Duration, ghost t': Runs.Run)
    requires worker.Valid() && worker.At(t, p, since) && t.Last().phase.Idle? && worker.Linked(commands, t)
    requires commands !in worker.Owned && waiter.receiver !in worker.Owned
    modifies worker.Parts(), worker.Owned, commands, waiter.receiver
    ensures t'.Extends(t) && t'.Last().checks == t.Last().checks
    ensures Waited(p, since, now, old(waiter.receiver.waits), waiter.receiver.waits)
    ensures done.Some? ==> Completed(done.value, commands, worker.port, t') && t'.Last().phase.CleanedUp?
    ensures done.Some? ==> done.value.terminal.FailedTerminal? && done.value.terminal.cause.WaitFailed?
    ensures done.None? ==> worker.Valid() && worker.At(t', p', now) && t'.Last().phase.Idle? && worker.Linked(commands, t')
    ensures done.None? ==> worker.Owned == old(worker.Owned)
  {
    hide WorldInvariant.Sound, Completed;
    var disconnected;
    disconnected, now := WaitForNextIteration(p, since, waiter);
    done, p' := None, p;
    t' := WorldInvariant.GoWait(t, now);
    if disconnected {
      var failed;
      failed, t' := FailLoop(worker, WaitFailed, p, commands, now, t');
      done := Some(failed);
    }
  }

  /** The worker loop for any number of turns, with commands and shutdown requests arriving at any time. */
  method RunWorkerLoop(worker: WorkerCore, shutdown: PriorityShutdown, commands: CommandReceiver,
                       waiter: ChannelWorkerWaiter, turns: nat, firstId: nat, ghost p: M.Progress, start: Duration,
                       ghost t: Runs.Run)
    returns (done: Option<WorkerCompletion>, ghost t': Runs.Run)
    requires worker.Valid() && worker.At(t, p, start) && t.Last().phase.Idle? && worker.Linked(commands, t)
    requires shutdown !in worker.Owned && commands !in worker.Owned && waiter.receiver !in worker.Owned
    requires WorkerCore.Synced(shutdown, t)
    modifies worker.Parts(), worker.Owned, shutdown, commands, waiter.receiver
    ensures t'.Extends(t) && WorkerCore.Synced(shutdown, t')
    ensures done.Some? ==> Completed(done.value, commands, worker.port, t')
    ensures done.None? ==> worker.Linked(commands, t') && t'.Last().phase.Idle? && WorldInvariant.Sound(t')
  {
    hide WorldInvariant.Sound, Completed, WorkerCore.Synced;
    var id, now := firstId, start;
    ghost var progress := p;
    t', done := t, None;
    for turn := 0 to turns
      invariant worker.Valid() && worker.At(t', progress, now) && t'.Last().phase.Idle?
      invariant worker.Linked(commands, t') && t'.Extends(t) && done.None?
      invariant fresh(worker.Owned - old(worker.Owned)) && WorkerCore.Synced(shutdown, t')
    {
      id := CommandsArrive(commands, id);
      ShutdownArrives(shutdown, t');
      done, progress, now, t' := Turn(worker, shutdown, commands, waiter, progress, now, t');
      if done.Some? {
        return;
      }
    }
  }

  /** A new worker and its loop. Its run is a run of a new world, so everything proved of those holds of it; and once it
      has ended, the transport was disconnected and closed exactly once, after everything else. */
  method RunWorker(mode: Mode, period: Period, pollBatches: nat, port: TransportPort, shutdown: PriorityShutdown,
                   commands: CommandReceiver, waiter: ChannelWorkerWaiter, turns: nat)
    returns (done: Option<WorkerCompletion>, ghost t: Runs.Run)
    requires 0 < pollBatches && port.trace == []
    requires commands.Valid() && commands.State() == Channel(false, [], [])
    requires shutdown.Valid() && !shutdown.state.Taken? && shutdown.checks == 0
    modifies port, shutdown, commands, waiter.receiver
    ensures Wire.FreshRun(t) && WorkerCore.Synced(shutdown, t) && commands.Valid()
    ensures commands.taken == Responses.Commands(t, |t.actions|)
    ensures Results(commands.delivered) ==
            Responses.Delivered(t, |t.actions|) + if done.Some? then Responses.LastAnswers(t.Last()) else []
    ensures done.Some? ==> Completed(done.value, commands, port, t) && Endings.ClosedOnce(port.trace)
    ensures done.Some? && done.value.terminal.ClosedTerminal? ==>
              |t.worlds| == |t.actions| + 1 && 0 < |t.actions|
              && ClosedAs(t.worlds[|t.actions| - 1].core, shutdown.latest.value, t)
    ensures done.None? ==> t.Last().phase.Idle?
  {
    hide WorldInvariant.WorldInv, WorldInvariant.Sound, Completed, Endings.ClosedOnce, ClosedAs;
    var worker := new WorkerCore(mode, period, pollBatches, port);
    ghost var first := Runs.NewWorld(mode, period, pollBatches);
    ghost var start := Runs.Run([first], []);
    NewRunIsSound(start, mode, period, pollBatches);
    done, t := RunWorkerLoop(worker, shutdown, commands, waiter, turns, 0, M.FRESH, 0, start);
    RunOfNewWorldIsFresh(t, done, commands, port, mode, period, pollBatches);
    Responses.ChannelFollowsRun(t, |t.actions|);
    if done.Some? {
      EndedRunIsClosed(done.value, commands, port, t);
      if done.value.terminal.ClosedTerminal? {
        ClosedRunsCloseAsAsked(shutdown.latest.value, t);
      }
    }
  }

  lemma RunOfNewWorldIsFresh(t: Runs.Run, done: Option<WorkerCompletion>, commands: CommandReceiver, port: TransportPort,
                             mode: Mode, period: Period, budget: nat)
    requires if done.Some? then Completed(done.value, commands, port, t) else WorldInvariant.Sound(t)
    requires 0 < budget && t.Extends(Runs.Run([Runs.NewWorld(mode, period, budget)], []))
    ensures Wire.FreshRun(t)
  {
    assert t.worlds[0] == [Runs.NewWorld(mode, period, budget)][0];
  }

  lemma NewRunIsSound(t: Runs.Run, mode: Mode, period: Period, budget: nat)
    requires 0 < budget && t == Runs.Run([Runs.NewWorld(mode, period, budget)], [])
    ensures WorldInvariant.Sound(t)
  {
    Invariant.NewCoreIsLive(mode, period);
  }

  lemma EndedRunIsClosed(completion: WorkerCompletion, commands: CommandReceiver, port: TransportPort, t: Runs.Run)
    requires Completed(completion, commands, port, t) && Wire.FreshRun(t)
    ensures Endings.ClosedOnce(port.trace) && Answered(commands, t) && commands.Valid()
    ensures WorldInvariant.Sound(t) && port.trace == t.Last().core.out.wire
    ensures completion.terminal.ClosedTerminal? ==> t.Last().phase.ClosedDown?
  {
    hide WorldInvariant.Sound, Endings.ClosedOnce;
    Endings.CleanupHappensOnce(t, |t.worlds| - 1);
  }
}
