# Verification of the controller worker

A Dafny model of the worker that drives an emulated game controller: one object owns the connection, the protocol
session, the committed input and the report schedule, and steps them against a transport that may answer anything, a
monotone clock, a one-slot command queue and an asynchronous shutdown request. `dafny verify dfyconfig.toml` checks the
whole project.

## How it is built

* **Components.** One module per source file. A component that the source updates in place is a class
  (`ReportScheduler`, `PeriodicPolicy`, `Handshake`, `ReadinessGate`, `ConnectionSessions`, `ReportSender`,
  `InputStateStore`, `ObservedSubcommands`, `StatusPublisher`, `CommandReceiver`, `LifecycleStateMachine`); each method
  is proved to compute a function of the component's value, and the properties are proved of those functions.
* **Transport, clock, shutdown.** `Transport.TransportPort` answers every call arbitrarily and records the answers in a
  ghost trace. `Clock.ReadClock` returns any reading not before the last one. `Worker.PriorityShutdown` may be asked for
  a shutdown at any moment.
* **The worker.** `Machine.dfy` gives each action of the worker as a function on its value. `Worker.WorkerCore` performs
  the same actions on objects, method by method, and `StepRuntime` performs a whole step, checking the shutdown request
  exactly where the source does. `WorkerThread.RunWorker` is the loop: step, deliver, wait, and the cleanup that ends it.
* **Runs.** `Runs.dfy` turns the order of a step, and what happens between steps, into a transition system. A `Run` is
  any sequence of worlds and enabled actions; `StepRuntime` and `RunWorker` carry the run they perform as a ghost value,
  so whatever is proved of all runs of a new world (`Wire.FreshRun`) holds of every execution of the loop, for every
  transport, clock, command and shutdown behaviour.
* **Invariant.** `Invariant.Live` ties lifecycle, connection attempt, session ids, pending command, pending tap,
  schedule, input and projection together; `WorldInvariant.WorldInv` adds the bookkeeping of a step. Both are kept by
  every action.
* **Histories.** Properties that speak of the past (`Evidence.Record`, `Cadence.Ledger`, `Bootstraps.Trials`,
  `TapRuns.TapRecord`, the command channel, the transport trace) are stated with a record folded over the run's actions, apart from anything
  the worker itself remembers.

Durations are whole nanoseconds up to `u64::MAX` seconds and 999,999,999 ns; `u64` counters saturate, session ids wrap
past zero, the report timer is taken modulo 256. Protocol sessions, reply preparation and output parsing follow
`crates/swbt-core/src/protocol`; the contents of a report are symbolic.

## Properties that do not hold as one would expect

* **Spacing.** Automatic sends have no minimum spacing: `Scheduler.TicksCanBeClose` gives two ticks 1 ns apart, and
  `Scheduler.NextTickIsDueExactlyWhen` the exact gap. What holds is the count (`Cadence.AutomaticSendsKeepThePeriod`).
* **The holdoff.** The 300 ms after a recorded reply are not free of reports: `Reachability.BootstrapsIgnoreTheHoldoff`
  sends one in them. `Holdoffs.HoldoffStopsOnlyAutomaticSends` says exactly which: while a holdoff runs every action
  sends what it would send without one, except the automatic send, which sends nothing.
* **Waiting.** A step that leaves nothing to do is not always followed by a wait. A Periodic worker whose host has asked
  for something but not opened its channels spins from the end of the holdoff to the deadline of the operation
  (`Reachability.WorkerSpins`, `Deadlines.StuckWorkersSpin`). `Deadlines.PastDeadlinesExactlyWhen` gives the exact
  condition for every step of every run, and `Deadlines.PastDeadlinesNeverWait` that the loop then, and only then, never
  waits after the step's last drive.
* **Answers.** A step that fails while a tap is pending gives that tap no result, and a loop that nothing can wake any
  more answers nothing: `Reachability.FailureLeavesATapUnanswered` is such a run, and
  `Responses.EndedRunsAnswerTheLastCommand` says exactly what each kind of end leaves.
* **Start calls.** Pair and Reconnect call the transport before the lifecycle is checked, so a command on a ready worker
  still shows in the trace (`Effects.ConnectEffect`).

## Model

| member | source | states |
|---|---|---|
| Scheduler.DivisionIsCatchUp | src/runtime/scheduler.rs:52-71 | The quotient-and-remainder tick reaches the same grid point, with the same skip count, as adding one period at a time until the deadline exceeds now |
| Scheduler.GridPointIsUnique | src/runtime/scheduler.rs:52-71 | No other number of periods lands strictly after now and at most one period later |
| Scheduler.TickFailsExactlyWhen | src/runtime/scheduler.rs:52-79 | A due tick fails if and only if the skip count exceeds u64 or the next point exceeds the largest duration |
| Scheduler.TickStaysOnGrid | src/runtime/scheduler.rs:52-71 | A due tick leaves the deadline on origin + k * period, strictly after now and by at most one period, and counts every passed point once |
| Scheduler.NextTickIsDueExactlyWhen | src/runtime/scheduler.rs:52-71 | After a tick the next one is due exactly from the grid point that its lateness leaves |
| Scheduler.TicksCanBeClose | src/runtime/scheduler.rs:52-71 | There is no minimum spacing: for every period of at least 2 ns, three of which fit the largest duration, two ticks 1 ns apart are both due |
| Scheduler.ReportScheduler.Step | src/runtime/scheduler.rs:52-71 | The in-place tick equals the simple form, and a failed tick leaves the deadline as it was |
| Scheduler.ReportScheduler.StartAt | src/runtime/scheduler.rs:34-46 | A start fails for a zero period or an overflowing first deadline, and otherwise schedules one period after the start |
| Scheduler.DurationFromTotalNanos | src/runtime/scheduler.rs:73-79 | Splitting into seconds and nanoseconds is exact for every representable duration and fails for every other |
| Clock.ProtocolTimestamp | src/runtime/clock.rs:9-12 | The timestamp never exceeds the clock reading, and falls below it only by saturating |
| Clock.DeadlineAfter | src/runtime/clock.rs:14-16 | A deadline is never before now, never after now + duration, and falls short only by saturating |
| Clock.MinimumDeadline | src/runtime/worker.rs:1787-1793 | The minimum of two optional deadlines is one of them, is no later than either, and is absent only if both are |
| Connection.SlotsAreSeparate | src/runtime/connection.rs:34-37 | Within one word, setting the bit of one id changes the membership of no other id |
| Connection.SetBitAddsOneId | src/runtime/connection.rs:11-18 | Setting an id's bit in the four words adds exactly that id to the set they represent |
| Connection.EmptyIffAllWordsZero | src/runtime/connection.rs:20-23 | The set is empty exactly when all four words are zero |
| Connection.SessionObservations | src/runtime/connection.rs:10-32 | After any sequence of observations since a reset the set holds exactly those ids and `last` is the latest |
| Connection.ObservedSubcommands.ObserveId | src/runtime/connection.rs:11-18 | Observing returns true exactly for a new id, adds exactly that id and makes it the last one |
| Connection.ObservedSubcommands.IsEmpty | src/runtime/connection.rs:20-23 | The word scan answers whether the set is empty |
| Input.TapReleasesItsButtons | src/controller/input.rs:27-62 | A tap plan exists exactly for a non-empty button list of at most 24 h, and its release is the current input minus exactly those buttons with sticks and IMU unchanged |
| Input.PressCandidate | src/controller/input.rs:11-17 | Inserting the buttons one by one gives the union with the pressed set, and an empty list is refused |
| Session.IdAfterClosedForm | src/runtime/session.rs:74-77 | The id after n begins, in closed form through the wrap past zero |
| Session.NearbySessionsHaveDistinctIds | src/runtime/session.rs:74-77 | Two sessions begun fewer than 2^64 - 1 begins apart never share an id |
| Session.IdsRepeatAfterAFullCycle | src/runtime/session.rs:74-77 | The bound is exact: 2^64 - 1 begins later the id is the same again |
| Session.ConnectionSessions.BeginPeriodic | src/runtime/session.rs:50-61 | A new session gets the next id and resets sender, policy, observations and input |
| Session.ConnectionSessions.EndSession | src/runtime/session.rs:93-100 | Only the current session can be ended |
| Sender.ReportSender.SendCandidate | src/runtime/sender.rs:150-169 | One send attempt: the transport sees the report, and timer, session, counters and projection move only if it was accepted |
| Status.StatusPublisher.SetSenderState | src/runtime/status.rs:147-184 | Publishing an acceptance needs the context of an active session; every caller is proved to have it, including the closing neutral report |
| Command.CommandReceiver.TryNext | src/runtime/command.rs:116-127 | A command is taken only while no response is in flight, and its response is in flight afterwards |
| Command.CommandReceiver.DeliverCompletion | src/runtime/command.rs:85-113 | A delivery answers the command in flight, and fails exactly when there is none |
| Handshakes.Handshake.Step | src/runtime/handshake.rs:169-248 | One handshake step on objects equals the step on values: topology, completion, retry schedule and one bootstrap attempt |
| Handshakes.DueBootstrapsAreTried | src/runtime/handshake.rs:169-253 | A bootstrap that is wanted and due is exactly one neutral report, with the next point of the grid; a step fails exactly when that point, one second on at the first trial, does not fit |
| Readiness.ReadinessGate.EvaluateForPeriodic | src/runtime/readiness.rs:142-173 | Periodic readiness: active, handshake collected, report mode 0x30, schedule started or held off, protocol ready; the schedule answer the source expects is always there |
| Readiness.ReadinessGate.EvaluateForDirect | src/runtime/readiness.rs:125-140 | Direct readiness: active, handshake collected, protocol ready |
| PeriodicPolicies.PeriodicPolicy.SendIfDue | src/runtime/periodic.rs:251-279 | Holdoff, tick, capacity and send in this order, each deciding whether the next happens |
| AutomaticSends.EveryServedPointIsSent | src/runtime/periodic.rs:251-279 | In every run, when a due check finds the schedule's point reached, no holdoff and no overflow, it reads the capacity and sends the committed input if and only if there is capacity, and the next point is the first one after now; otherwise it sends nothing, and it fails exactly as that send does |
| AutomaticSends.NoPointIsMissed | src/runtime/worker.rs:800-856 | In every run no step of a Periodic worker with a schedule finishes before a due check has looked at it, and afterwards its point lies ahead unless the holdoff, an overflow or a tap's release kept it |
| PeriodicPolicies.PeriodicPolicy.RecordOutputCompletion | src/runtime/periodic.rs:208-226 | Only an accepted reply extends the holdoff, to 300 ms after its completion unless it already reaches further, and an overflow leaves it |
| Taps.FinishPeriodicTap | src/runtime/periodic.rs:27-54 | The release is committed whatever the send does; the first error is reported and a later terminal one handed on |
| Taps.BeginDirectTap | src/runtime/direct.rs:195-216 | A Direct press is committed, and the tap pending until start + duration, only if its report is accepted |
| Output.HandleOutputReport | src/runtime/output.rs:75-108 | A subcommand is observed before its reply is prepared, and answered from the committed input once the protocol is ready |
| Cleanup.Run | src/runtime/cleanup.rs:111-165 | Cleanup runs every phase whatever fails before it, keeps the earliest failure, and does nothing when already closing |
| Cleanup.FinishWithJoin | src/runtime/cleanup.rs:187-202 | Neither the cleanup failure nor the join failure hides the other, and a cleanup that was not performed succeeds |
| Waiting.WaitRequestFor | src/runtime/worker.rs:296-304 | The loop waits unless the step asked to go on at once or a reported deadline has passed, and never past that deadline |
| Waiting.ChannelWorkerWaiter.Wait | src/runtime/worker.rs:85-108 | A waiting token ends the wait, and a timeout comes no earlier than the deadline |
| Waiting.WaitForNextIteration | src/runtime/worker.rs:296-330 | One wait, or none, which then leaves the token: none if the step asked to go on at once or its deadline has passed |
| Worker.PriorityShutdown.Request | src/runtime/worker_thread.rs:171-199 | A drop replaces an explicit request that was not taken; nothing else replaces anything |
| Worker.PriorityShutdown.Take | src/runtime/worker_thread.rs:208-219 | A request is handed over once, as it was made: the one that waited, or the latest that has just come |
| Worker.RecordCommandProgress | src/runtime/worker.rs:310-318 | A step records one result: every caller is proved to hold none yet |
| Worker.WorkerCore.BeginConnection | src/runtime/worker.rs:611-637 | A connection begins only from open, with a new session, handshake and gate that carry its id |
| Worker.WorkerCore.HandleEvent | src/runtime/worker.rs:859-922 | An event of the current session has its effect on the worker; any other event has none |
| Worker.WorkerCore.DriveConnection | src/runtime/worker.rs:989-1067 | One drive: timeout, handshake, readiness and the completion or loss of the connection |
| Worker.WorkerCore.RunDue | src/runtime/worker.rs:1419-1478 | Due work: the release of a due tap, or else in Periodic mode the automatic send |
| Worker.WorkerCore.CloseFor | src/runtime/worker.rs:1089-1136 | A close answers a pending connection command, interrupts a pending tap, cleans up and publishes the end |
| Worker.WorkerCore.FailWith | src/runtime/worker.rs:1179-1199 | A failure answers a pending connection command and publishes the failed state |
| Worker.WorkerCore.NextDeadline | src/runtime/worker.rs:1229-1242 | The next deadline is the minimum over schedule or holdoff, tap, operation and bootstrap retry |
| Worker.WorkerCore.StepRuntime | src/runtime/worker.rs:653-857 | A whole step on objects is a run of the transition system ending in continue, close or failure. It takes the queued command if none is pending, looks for a shutdown once after every action that asks for it, closes on exactly the request taken, and reports the completion of that cleanup; a shutdown already requested is the only thing it does |
| WorkerThread.Turn | src/runtime/worker_thread.rs:561-610 | A shutdown that is already requested ends the loop with the calls that this request asks of the worker as it was before the turn |
| WorkerThread.RunWorkerLoop | src/runtime/worker_thread.rs:547-611 | Any number of turns, with commands and shutdown requests arriving between them, is one run. The results delivered are those of its steps, in order, and at its end the last step's result or the interrupted tap's; no delivery ever lacks a response, and a closed worker has answered every command it took. The completion is that of the cleanup, or names the error the worker failed with |
| WorkerThread.RunWorker | src/runtime/worker_thread.rs:450-524 | A new worker's loop is a run of a new world: the k-th command taken gets the k-th result of the run. Once it has ended its transport was disconnected and closed exactly once, after everything else, and a closed one with the calls of the latest request |
| Invariant.SettlingPreservesLive | src/runtime/worker.rs:1042-1065 | Settling readiness keeps the worker's agreement and never meets an invalid lifecycle |
| Invariant.DrivePreservesLive | src/runtime/worker.rs:989-1067 | Driving a connection keeps the worker's agreement, whatever the transport answers |
| Invariant.EventPreservesLive | src/runtime/worker.rs:859-987 | Handling any event keeps the worker's agreement |
| WorldInvariant.StepKeepsWorldInv | src/runtime/worker.rs:653-857 | Every action keeps the invariant: one result at most, a response in flight exactly while something is unanswered, nothing overlooked by a step that does not go on at once |
| WorldInvariant.RunKeepsWorldInv | src/runtime/worker_thread.rs:547-611 | The invariant holds throughout every run |
| Responses.ResultsAreNeverReplaced | src/runtime/worker.rs:310-318 | Once a step holds a result, nothing but its delivery changes it and no further command is taken |
| Responses.EveryCommandIsAnsweredOnce | src/runtime/command.rs:75-127 | At every moment of every run the commands taken are the results delivered plus the one in flight |
| Responses.ChannelFollowsRun | src/runtime/command.rs:75-127 | In every run the channel has taken the commands the run handled, in order, and delivered the results of its steps, in order |
| Responses.EndedRunsAnswerTheLastCommand | src/runtime/worker_thread.rs:561-610 | A closed run answers its last command by its result or the interrupted tap, never both; a failed one leaves only a tap unanswered, and one abandoned because nothing could wake it whatever was pending |
| Reachability.FailureLeavesATapUnanswered | src/runtime/worker.rs:1179-1199 | There is a run in which a poll fails while a tap is pending, and the failed step has no result for it |
| Guarantees.LiveWorkersAgree | src/runtime/worker.rs:611-637 | In every run: connecting exactly while an attempt and its command are pending, with session, gate and handshake ids equal to the current one; a tap only when ready |
| Guarantees.ImpossibleErrorsNeverHappen | src/runtime/readiness.rs:125-239 | In every run a drive never meets a stale session, a handshake of another session or an invalid lifecycle, and Direct never waits for its protocol |
| Projections.ProjectionShowsTheWorker | src/runtime/status.rs:104-232 | As long as a run goes on the projection equals the worker's fields and shows the latest request of the host, its counters are the numbers of accepted reports, and the report mode shows exactly while a session is current |
| Projections.EndedRunsShowTheirEnd | src/runtime/status.rs:222-257 | In every run a closed worker shows as closed, and a failed one as failed with the message of the error it failed on also after its cleanup; neither shows a connection, session or report mode, and the counters include the neutral report of the close |
| CommandResults.EveryConnectionCommandBegins | src/runtime/worker.rs:665-710 | In every run Pair and Reconnect make their own start call; they fail at once with its error, or with the lifecycle's if the worker is not open, and are pending otherwise, with a new session and now + timeout as its deadline |
| CommandResults.EveryConnectionCommandIsAnswered | src/runtime/worker.rs:989-1067 | In every run a pending Pair or Reconnect ends exactly when its session's record says so, and with exactly that result: success, timeout, schedule overflow, lost connection with its reason, shutdown, invalid key store or failed worker |
| CommandResults.EveryScheduleStartsInTime | src/runtime/readiness.rs:142-173 | In every run a drive starts the report schedule exactly when the handshake is complete, the host has set report mode 0x30 and no reply is more recent than 300 ms, one period ahead |
| CommandResults.EveryTapIsAnswered | src/runtime/worker.rs:1419-1457 | In every run a pending tap ends exactly at its release, a disconnect, a shutdown or a failure's cleanup, with its first error, the release's error, success or the interruption as its exact result |
| Guarantees.StepsReportSoundDeadlines | src/runtime/worker.rs:800-856 | A continuing step reports a deadline no later than the operation, tap and retry deadlines, and leaves nothing pending that was overdue when it last looked |
| Deadlines.PastDeadlinesExactlyWhen | src/runtime/worker.rs:1401-1413 | A step that does not go on at once reports a deadline no later than its last drive if and only if the worker is Periodic, unscheduled and its holdoff had expired, or an earlier drive of the step noted a retry point now past, or the schedule has overflowed in the past |
| Deadlines.PastDeadlinesNeverWait | src/runtime/worker.rs:296-330 | The loop never waits after a step's last drive exactly when the reported deadline is no later than it |
| Deadlines.StuckWorkersSpin | src/runtime/worker.rs:1401-1413 | Any number of quiet steps of a Periodic worker that waits for its topology leaves all but the trace as it was, and the loop waits after none of them once the holdoff has expired |
| Reachability.WorkerSpins | src/runtime/worker_thread.rs:561-590 | For any times between the end of the holdoff and the operation deadline there is a run with a step at each of them and a wait after none |
| Evidence.ReadinessIsEarned | src/runtime/worker.rs:997-1060 | A Pair or Reconnect that succeeds saw, in its own session and before its deadline, the link and both channels, then an accepted neutral report, and a ready protocol; in Periodic mode the schedule runs and every recorded reply is 300 ms old |
| Reachability.PairCanSucceed | src/runtime/worker.rs:665-710 | In both modes there is a run in which a pending Pair succeeds, in Periodic mode after a recorded reply and its holdoff, so the premises of the readiness theorem can be met |
| Evidence.ReadyProtocolWasReplied | src/runtime/readiness.rs:154-163 | A ready protocol means that accepted replies of this session set report mode 0x30 and non-zero player lights |
| Evidence.OnlyDrivingSucceeds | src/runtime/worker.rs:1042-1060 | A pending connection command succeeds by no other action than driving the connection |
| Evidence.RunIsBacked | src/runtime/handshake.rs:123-138 | In every run the handshake's flags, the connected flag and the observed subcommands are exactly what the session's transport record shows, and the holdoff ends exactly 300 ms after its latest recorded reply |
| Replies.EveryHostWriteIsAnswered | src/runtime/output.rs:75-108 | In every run a host request is remembered and shown, and answered exactly if it has an answer, by one report with its own id and payload, the next timer, and the committed input once the host is ready, neutral input before; an accepted answer changes exactly the setting that was requested |
| Replies.ReadsFitExactlyWhen | crates/swbt-core/src/protocol/spi.rs:51-64 | A flash read is answered if and only if it asks for at most 29 bytes that end within the first 512 KiB, although the 32-bit sum may wrap |
| Cadence.AutomaticSendsKeepThePeriod | src/runtime/periodic.rs:251-279 | Since the start of the schedule the passed grid points equal floor((last due - start) / period), and the sends that automatic due work added to the trace number at most floor((now - start) / period) |
| Holdoffs.HoldoffStopsOnlyAutomaticSends | src/runtime/periodic.rs:251-262 | While a holdoff runs any action sends exactly what it would send without one, except the automatic send, which sends nothing |
| Holdoffs.ReportsAfterARecentReply | src/runtime/periodic.rs:208-226 | In every run, within 300 ms after a recorded reply a report goes out if and only if the action would send it anyway and is not the automatic send |
| Reachability.BootstrapsIgnoreTheHoldoff | src/runtime/handshake.rs:231-263 | There is a run in which a bootstrap goes out while the holdoff runs |
| Cadence.AutomaticSendsRespectTheHoldoff | src/runtime/periodic.rs:251-262 | No automatic send falls within 300 ms after any recorded reply of its session |
| Bootstraps.StepShakeStaysOnGrid | src/runtime/handshake.rs:192-229 | Each retry moves to the grid point after now on the grid of the first trial, and its trial falls into a later second |
| Bootstraps.TrialsKeepTheSchedule | src/runtime/handshake.rs:169-253 | In every run a session's bootstrap trials number at most 1 + floor((last - first) / 1 s), stay on the first trial's grid, and none is at or after the operation deadline |
| Bootstraps.EveryDueBootstrapIsTried | src/runtime/handshake.rs:169-253 | In every run a drive before the deadline tries a wanted bootstrap whenever it is due, and fails if and only if its next point does not fit or its send meets a terminal error |
| Bootstraps.CompletionIsJustifiedAndFinal | src/runtime/handshake.rs:169-253 | A handshake completes only with topology, an accepted bootstrap and its condition, and a completed one does nothing when stepped |
| Bootstraps.NoTrialAfterCompletion | src/runtime/handshake.rs:169-253 | In every run a session has no further bootstrap trial once its handshake has completed, until the next session begins |
| TapRuns.TapsReleaseWhatTheyPressed | src/runtime/worker.rs:1419-1457 | A due tap sends the input it held minus exactly its buttons, not before start + duration, once; Periodic commits it always, Direct on acceptance |
| TapRuns.OthersEndUnreleased | src/runtime/worker.rs:960-987 | While a tap is pending no other action commits an input, and exactly a disconnect of its session, a shutdown and the cleanup after a failure end it unreleased |
| TapRuns.TapsAreReleasedAtMostOnce | src/runtime/worker.rs:1419-1457 | In every run there is at most one release attempt since the latest tap command, and none while that tap is still pending |
| TapRuns.InterruptedTapsAreNeverReleased | src/runtime/worker.rs:1363-1377 | After a disconnect, a shutdown or a failure's cleanup nothing is released until the next tap command |
| TapRuns.RunHolds | src/controller/input.rs:27-37 | In every run a pending tap holds exactly its pressed state and will let go of exactly its buttons at its time |
| Wire.AcceptanceOnlyCommitment | src/runtime/sender.rs:63-169 | In every run the session's accepted reports carry timers 0, 1, 2, ... modulo 256, the protocol session is the replay of exactly those, Direct's input is the state of the last accepted input report or neutral, and the counters count all accepted reports |
| Effects.DriveEffect | src/runtime/handshake.rs:256-263 | A drive sends at most one report, a neutral one, only before the deadline, and its fault is exactly the report's terminal error, or that of a next bootstrap point that does not fit |
| Effects.DueEffect | src/runtime/worker.rs:1419-1478 | Due work sends at most one report and faults exactly by its terminal error, through either tap half or the automatic send |
| Effects.CommandEffect | src/runtime/worker.rs:1310-1361 | An input command sends at most one report, only when ready, and faults exactly by its terminal error |
| InputCommands.EveryCommandIsHandled | src/runtime/worker.rs:1310-1584 | In every run, button by button: pressing adds the listed buttons, releasing takes them away, neutral and candidate set the whole state, and an empty list changes nothing and is refused. Periodic commits without sending; Direct needs readiness, sends exactly that state, and commits it and answers success if and only if it is accepted; a tap presses and stays pending |
| InputCommands.OnlyCommandsChangeInput | src/runtime/session.rs:50-91 | In every run nothing but an input command, a new session, which starts neutral, and the release of a due tap changes the committed input |
| Effects.ConnectEffect | src/runtime/worker.rs:665-710 | Pair and Reconnect make one start call, and begin a session exactly if it succeeded on an open worker |
| Endings.TerminalErrorsStopTheWorker | src/runtime/worker.rs:1795-1911 | In every run the worker goes on while no send failed otherwise than by rejection and no poll failed, and stops with that very error at the first one; the only other stop is a due bootstrap whose next point does not fit |
| Endings.FirstErrorIsKeptForTheCaller | src/runtime/worker.rs:1885-1911 | A tap reports its first error while the worker stops with the later terminal one |
| Endings.CleanupHappensOnce | src/runtime/cleanup.rs:111-165 | Every ended run drained at most once, then disconnected and closed exactly once, sent nothing after the drain, and does nothing more |
| Endings.CloseRequestsDiffer | src/runtime/worker.rs:1108-1124 | A drop only disconnects and closes; an explicit close drains for a second first, and sends a neutral report before that only if asked to while connected |
| Endings.EveryFailureClosesSilently | src/runtime/worker.rs:1151-1176 | In every run the cleanup after a failure drains for a second, disconnects and closes, and sends nothing |
| Endings.KeptFailureIsTheEarliest | src/runtime/cleanup.rs:204-215 | The kept failure is that of the first phase that failed, and none only if none failed |
| StaleEvents.DisconnectEndsSession | src/runtime/worker.rs:960-987 | Handling a disconnect of the current session ends it with its attempt, tap and schedule, shows the reason, sends nothing and commits nothing |
| StaleEvents.RestOfBatchIsInert | src/runtime/worker.rs:758-794 | After a disconnect of the current session every action up to the end of its batch, unless a shutdown comes first, handles one more event, and none changes the worker, the transport or the step's report |
| StaleEvents.SessionsAreNumbered | src/runtime/session.rs:50-91 | The n-th session of a run has the n-th id |
| StaleEvents.EarlierSessionsAreNeverCurrent | src/runtime/session.rs:102-109 | An event tagged in an earlier session is never taken for the current one, short of 2^64 - 1 begins |
| Wakeup.MovesKeepSharedInv | src/runtime/transport/mod.rs:29-40 | Every move of producers and worker keeps: whatever appeared after the worker last looked has set the token, or its producer is about to |
| Wakeup.NoLostWakeup | src/runtime/worker.rs:321-330 | In every interleaving, while a shutdown request, a transport event or a command that could be taken is there, a blocked worker has the token set or a producer about to notify |

## Left out

- Wakeup.MovesKeepSharedInv: the last shutdown check of a step is its own move; the earlier checks of the step are left to chance, which allows more interleavings than the source has.
- WorkerThread.RunWorkerLoop: runs for any given number of turns, since a loop without end has no termination proof; every finite execution is covered.
- The activity counters of a step (events handled, due actions, skipped deadlines) and diagnostic events: reporting only.
- The output observation callback, rumble data, the packet id and the HID channel of host output: passed through without effect on the worker.
- The source chain of transport errors, error messages and their mapping to public errors: only the kind decides anything.
- Report bytes, quaternion arithmetic and the contents of simulated flash: a report names its timer, state, motion history and reply instead.
- The USB and Bluetooth backend: replaced by a port that may answer anything.
- Thread start, join and panic handling, lock poisoning, the owner's drop timeout: operating system behaviour.
- Profiles, configuration and builders: file input and output, and single-branch validation.
- The controller model parameter: one 32-button set stands for every model.
- Reopening a controller: a new worker starts with a new sender and counters, so every run is that of one worker.
