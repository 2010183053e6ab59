/** Concrete runs: what is proved of successful connections, holdoffs and past deadlines is proved of something. */
module Reachability {
  import opened Types
  import opened Command
  import opened Deadlines
  import Effects
  import opened Handshakes
  import Holdoffs
  import opened Invariant
  import opened Machine
  import opened PeriodicPolicies
  import opened Protocol
  import opened Readiness
  import opened Runs
  import opened Scheduler
  import opened Session
  import opened Transport
  import opened Wire
  import opened WorldInvariant

  /** Ten seconds and eight milliseconds, in nanoseconds. */
  const TIMEOUT: Duration := 10_000_000_000
  const PERIOD: Period := 8_000_000

  /** A subcommand request from the host with one argument. */
  function Asking(id: Byte, argument: Byte): TransportEvent {
    HidOutput([0x01, 0, 0, 0, 0, 0, 0, 0, 0, 0, id, argument])
  }

  /** The protocol session after the request is answered: device information, report mode or player lights. */
  function Answered(session: ProtocolSession, id: Byte, argument: Byte): ProtocolSession {
    if id == 0x03 then session.(reportMode := Some(argument))
    else if id == 0x30 then session.(playerLights := Some(argument))
    else session
  }

  /** A worker pairing in its first session, with this handshake and this protocol session; `asked` says that the host
      has been answered at time zero, which in Periodic mode starts the holdoff. */
  ghost predicate Attempting(c: Core, mode: Mode, h: Shake, session: ProtocolSession, asked: bool) {
    && c.mode == mode && c.sessions == Sessions(1, Some(1))
    && c.connection == Some(Attempted(1, Some(h), Gate(1, TIMEOUT, None)))
    && c.out.sender.session == session
    && c.pending == Some(PairCommand) && c.lifecycle.Connecting? && c.tap.None?
    && c.policy == Policy(PERIOD, None, if mode.Periodic? && asked then Some(REPLY_HOLDOFF) else None)
    && (c.observed.ids != iset{} <==> asked)
  }

  ghost predicate Pairing(w: World, mode: Mode, h: Shake, session: ProtocolSession, asked: bool) {
    && Attempting(w.core, mode, h, session, asked)
    && w.time == 0 && w.fault.None? && w.budget == 1 && w.progress.result.None?
  }

  function FirstShake(mode: Mode): Shake {
    NewShake(1, Condition(mode))
  }

  /** A run and its last world, in the middle of its only batch. */
  ghost predicate InBatch(r: Run, events: seq<Option<SessionEvent>>) {
    r.worlds != [] && FreshRun(r) && Sound(r) && r.Last().phase == Handling(0, events)
  }

  lemma NewRun(mode: Mode) returns (r: Run)
    ensures FreshRun(r) && Sound(r) && r == Run([NewWorld(mode, PERIOD, 1)], [])
  {
    NewCoreIsLive(mode, PERIOD);
    r := Run([NewWorld(mode, PERIOD, 1)], []);
    assert r.worlds[0] == NewWorld(mode, PERIOD, 1);
  }

  /** The host's events in the first batch, tagged with the first session. */
  function Tagged(events: seq<TransportEvent>): seq<Option<SessionEvent>> {
    seq(|events|, i requires 0 <= i < |events| => Some(SessionEvent(1, events[i])))
  }

  lemma StartPairing(mode: Mode, events: seq<TransportEvent>) returns (r: Run)
    requires events != []
    ensures InBatch(r, Tagged(events)) && Pairing(r.Last(), mode, FirstShake(mode), DEFAULT_SESSION, false)
  {
    hide WorldInv, Perform;
    r := NewRun(mode);
    var first := r;
    r := GoQuietly(r, StepBegins);
    r := GoConnect(r, PairCommand, TIMEOUT, None, 0);
    r := GoQuietly(r, Settle);
    r := GoPoll(r, Ok(events));
    assert r.Last().phase.events == Tagged(events);
    StillFresh(first, r);
  }

  // ---- One event, one drive ----

  lemma TopologyIsObserved(c: Core, p: Progress, mode: Mode, h: Shake, session: ProtocolSession, asked: bool,
                           event: TransportEvent)
    requires Attempting(c, mode, h, session, asked) && h.sessionId == 1
    requires event.LinkConnected? || event.HidChannelOpened?
    ensures var o := HandleEvent(c, p, SessionEvent(1, event), 0, Accepted);
            && Attempting(o.core, mode, ObserveEvent(h, 1, event), session, asked)
            && o.progress == p && o.fault.None? && ChangesTopology(c, SessionEvent(1, event))
  {
  }

  lemma HostIsAnswered(c: Core, p: Progress, mode: Mode, h: Shake, session: ProtocolSession, asked: bool, id: Byte,
                       argument: Byte)
    requires Attempting(c, mode, h, session, asked) && (id == 0x02 || id == 0x03 || id == 0x30)
    ensures var o := HandleEvent(c, p, SessionEvent(1, Asking(id, argument)), 0, Accepted);
            && Attempting(o.core, mode, h, Answered(session, id, argument), true)
            && o.progress == p && o.fault.None? && !ChangesTopology(c, SessionEvent(1, Asking(id, argument)))
  {
    assert Asking(id, argument).payload[11..] == [argument];
    assert id in (c.observed.ids + iset{id});
  }

  /** Without the whole topology a drive changes nothing. */
  lemma DriveWaits(c: Core, p: Progress, mode: Mode, h: Shake, session: ProtocolSession, asked: bool, now: Duration)
    requires Attempting(c, mode, h, session, asked) && now < TIMEOUT
    requires h.sessionId == 1 && !h.stopped && !h.TopologyReady()
    ensures Drive(c, p, now, Accepted) == Outcome(c, p, None)
  {
  }

  function Bootstrapped(mode: Mode): Shake {
    FirstShake(mode).(link := true, control := true, interrupt := true,
                      retry := Some(Schedule(BOOTSTRAP_RETRY, BOOTSTRAP_RETRY)), accepted := true)
  }

  /** With it, the first drive sends the bootstrap. */
  lemma DriveBootstraps(c: Core, p: Progress, mode: Mode)
    requires Attempting(c, mode, FirstShake(mode).(link := true, control := true, interrupt := true), DEFAULT_SESSION, false)
    ensures var o := Drive(c, p, 0, Accepted);
            Attempting(o.core, mode, Bootstrapped(mode), DEFAULT_SESSION, false) && o.progress == p && o.fault.None?
  {
  }

  /** The drive that finds everything in place makes the command succeed. */
  lemma DriveSucceeds(c: Core, p: Progress, mode: Mode)
    requires Attempting(c, mode, Bootstrapped(mode), READY_SESSION, true)
    ensures var o := Drive(c, p, REPLY_HOLDOFF, Accepted);
            && o.progress.result == Some(Ok(())) && o.fault.None?
            && o.core.lifecycle.Ready? && o.core.mode == mode && !o.core.HasPending()
  {
  }

  const READY_SESSION: ProtocolSession := DEFAULT_SESSION.(reportMode := Some(0x30), playerLights := Some(0x01))

  // ---- Runs ----

  /** A topology event that leaves something missing: the drive that follows only waits. */
  lemma ObserveTopologyEvent(r: Run, mode: Mode, h: Shake, session: ProtocolSession, asked: bool, event: TransportEvent,
                             events: seq<Option<SessionEvent>>) returns (r': Run)
    requires InBatch(r, [Some(SessionEvent(1, event))] + events) && Pairing(r.Last(), mode, h, session, asked)
    requires event.LinkConnected? || event.HidChannelOpened?
    requires h.sessionId == 1 && !h.stopped && !ObserveEvent(h, 1, event).TopologyReady()
    ensures InBatch(r', events) && Pairing(r'.Last(), mode, ObserveEvent(h, 1, event), session, asked)
  {
    hide Sound, FreshRun, Drive, HandleEvent, Attempting, ChangesTopology;
    TopologyIsObserved(r.Last().core, r.Last().progress, mode, h, session, asked, event);
    var observed := GoEvent(r, 0, Accepted);
    DriveWaits(observed.Last().core, observed.Last().progress, mode, ObserveEvent(h, 1, event), session, asked, 0);
    r' := GoDrive(observed, 0, Accepted);
    StillFresh(r, r');
  }

  /** The event that completes the topology: the drive that follows sends the bootstrap. */
  lemma CompleteTopology(r: Run, mode: Mode, events: seq<Option<SessionEvent>>) returns (r': Run)
    requires InBatch(r, [Some(SessionEvent(1, HidChannelOpened(Interrupt)))] + events)
    requires Pairing(r.Last(), mode, FirstShake(mode).(link := true, control := true), DEFAULT_SESSION, false)
    ensures InBatch(r', events) && Pairing(r'.Last(), mode, Bootstrapped(mode), DEFAULT_SESSION, false)
  {
    hide Sound, FreshRun, Drive, HandleEvent, Attempting, ChangesTopology;
    var h := FirstShake(mode).(link := true, control := true);
    var event := HidChannelOpened(Interrupt);
    TopologyIsObserved(r.Last().core, r.Last().progress, mode, h, DEFAULT_SESSION, false, event);
    var observed := GoEvent(r, 0, Accepted);
    DriveBootstraps(observed.Last().core, observed.Last().progress, mode);
    r' := GoDrive(observed, 0, Accepted);
    StillFresh(r, r');
  }

  /** A request of the host whose reply is accepted. */
  lemma AnswerHost(r: Run, mode: Mode, h: Shake, session: ProtocolSession, asked: bool, id: Byte, argument: Byte,
                   events: seq<Option<SessionEvent>>) returns (r': Run)
    requires InBatch(r, [Some(SessionEvent(1, Asking(id, argument)))] + events)
    requires Pairing(r.Last(), mode, h, session, asked) && (id == 0x02 || id == 0x03 || id == 0x30)
    ensures InBatch(r', events) && Pairing(r'.Last(), mode, h, Answered(session, id, argument), true)
  {
    hide Sound, FreshRun, HandleEvent, Attempting, Asking, ChangesTopology;
    HostIsAnswered(r.Last().core, r.Last().progress, mode, h, session, asked, id, argument);
    r' := GoEvent(r, 0, Accepted);
    StillFresh(r, r');
  }

  function ReadyScript(): seq<TransportEvent> {
    [LinkConnected, HidChannelOpened(Control), HidChannelOpened(Interrupt), Asking(0x03, 0x30), Asking(0x30, 0x01)]
  }

  lemma TopologyObserved(mode: Mode) returns (r: Run)
    ensures InBatch(r, Tagged(ReadyScript())[3..]) && Pairing(r.Last(), mode, Bootstrapped(mode), DEFAULT_SESSION, false)
  {
    hide InBatch, Pairing, Asking;
    var events := Tagged(ReadyScript());
    r := StartPairing(mode, ReadyScript());
    assert events == [Some(SessionEvent(1, LinkConnected))] + events[1..];
    r := ObserveTopologyEvent(r, mode, FirstShake(mode), DEFAULT_SESSION, false, LinkConnected, events[1..]);
    assert events[1..] == [Some(SessionEvent(1, HidChannelOpened(Control)))] + events[2..];
    r := ObserveTopologyEvent(r, mode, FirstShake(mode).(link := true), DEFAULT_SESSION, false,
                              HidChannelOpened(Control), events[2..]);
    assert events[2..] == [Some(SessionEvent(1, HidChannelOpened(Interrupt)))] + events[3..];
    r := CompleteTopology(r, mode, events[3..]);
  }

  lemma HostAnswered(mode: Mode) returns (r: Run)
    ensures InBatch(r, []) && Pairing(r.Last(), mode, Bootstrapped(mode), READY_SESSION, true)
  {
    hide InBatch, Pairing, Asking;
    var events := Tagged(ReadyScript())[3..];
    r := TopologyObserved(mode);
    assert events == [Some(SessionEvent(1, Asking(0x03, 0x30)))] + events[1..];
    r := AnswerHost(r, mode, Bootstrapped(mode), DEFAULT_SESSION, false, 0x03, 0x30, events[1..]);
    assert events[1..] == [Some(SessionEvent(1, Asking(0x30, 0x01)))] + [];
    r := AnswerHost(r, mode, Bootstrapped(mode), Answered(DEFAULT_SESSION, 0x03, 0x30), true, 0x30, 0x01, []);
  }

  /** In both modes there is a run in which a pending Pair succeeds; in Periodic mode that is 300 ms after a recorded reply,
      with the schedule started by the same drive. So the premises of ReadinessIsEarned can be met. */
  lemma PairCanSucceed(mode: Mode) returns (r: Run, i: nat)
    ensures FreshRun(r) && i < |r.actions| && Alive(r.worlds[i].phase) && r.worlds[i].core.mode == mode
    ensures r.worlds[i].core.pending == Some(PairCommand) && r.worlds[i + 1].progress.result == Some(Ok(()))
    ensures mode.Periodic? ==> r.worlds[i].core.policy.holdoff == Some(REPLY_HOLDOFF)
  {
    hide Sound, FreshRun, Drive, Bootstrapped;
    var answered := HostAnswered(mode);
    var polled := GoQuietly(answered, EndBatch);
    DriveSucceeds(polled.Last().core, polled.Last().progress, mode);
    r := GoDrive(polled, REPLY_HOLDOFF, Accepted);
    i := |polled.actions|;
    StillFresh(answered, r);
    RunLengths(polled);
  }

  // ---- A tap without an answer ----

  lemma BecomesReady() returns (r: Run)
    ensures r.worlds != [] && FreshRun(r) && Sound(r) && r.Last().phase.DueCheck? && r.Last().fault.None?
    ensures r.Last().core.lifecycle.Ready? && r.Last().core.mode.Direct? && !r.Last().core.HasPending()
    ensures r.Last().time == REPLY_HOLDOFF
  {
    hide Sound, FreshRun, Drive, Bootstrapped;
    var answered := HostAnswered(Direct);
    r := GoQuietly(answered, EndBatch);
    DriveSucceeds(r.Last().core, r.Last().progress, Direct);
    r := GoDrive(r, REPLY_HOLDOFF, Accepted);
    StillFresh(answered, r);
  }

  lemma StepAgain() returns (r: Run)
    ensures r.worlds != [] && FreshRun(r) && Sound(r) && r.Last().phase.Started?
    ensures r.Last().core.lifecycle.Ready? && r.Last().core.mode.Direct? && !r.Last().core.HasPending()
    ensures r.Last().time == REPLY_HOLDOFF && r.Last().progress == FRESH
  {
    hide Sound, FreshRun, NextDeadline;
    var ready := BecomesReady();
    r := GoDue(ready, REPLY_HOLDOFF, false, Accepted);
    r := GoQuietly(r, Finish);
    r := GoQuietly(r, Deliver);
    r := GoQuietly(r, StepBegins);
    StillFresh(ready, r);
  }

  lemma StartTap() returns (r: Run)
    ensures r.worlds != [] && FreshRun(r) && Sound(r) && r.Last().phase.Commanded? && r.Last().fault.None?
    ensures r.Last().core.tap.Some? && r.Last().progress.result.None? && r.Last().channel.inFlight
  {
    hide Sound, FreshRun;
    var started := StepAgain();
    r := GoInput(started, Tap([0], 0), REPLY_HOLDOFF, Accepted);
    StillFresh(started, r);
  }

  /** The poll after the press fails. */
  lemma PollFails() returns (r: Run)
    ensures r.worlds != [] && FreshRun(r) && Sound(r) && r.Last().phase.Stopping?
    ensures r.Last().core.tap.Some? && r.Last().progress.result.None? && r.Last().channel.inFlight
  {
    hide Sound, FreshRun;
    var pressed := StartTap();
    r := GoQuietly(pressed, Settle);
    r := GoPoll(r, Err(TransportErrorKind.Closed));
    StillFresh(pressed, r);
  }

  /** There is a run in which a tap is pressed, the next poll fails, and the worker with it: the tap is still pending, its
      response still in flight, and the step has no result for it. */
  lemma FailureLeavesATapUnanswered() returns (r: Run)
    ensures r.worlds != [] && FreshRun(r) && r.Last().phase.Broken?
    ensures r.Last().core.tap.Some? && r.Last().channel.inFlight && r.Last().progress.result.None?
  {
    hide Sound, FreshRun;
    var failed := PollFails();
    TapHasNoConnectionCommand(failed);
    r := GoFail(failed);
    StillFresh(failed, r);
  }

  lemma TapHasNoConnectionCommand(r: Run)
    requires r.worlds != [] && Sound(r) && Alive(r.Last().phase)
    ensures r.Last().core.tap.Some? ==> r.Last().core.pending.None?
  {
  }

  lemma RunLengths(r: Run)
    requires Sound(r)
    ensures |r.worlds| == |r.actions| + 1
  {
  }

  // ---- A report during the holdoff ----

  lemma DriveBootstrapsWhileHeld(c: Core, p: Progress)
    requires Attempting(c, Periodic, FirstShake(Periodic).(link := true, control := true, interrupt := true),
                        Answered(DEFAULT_SESSION, 0x03, 0x30), true)
    ensures NewSends(c, Drive(c, p, 0, Accepted).core) == 1 && c.policy.Held(0)
  {
    var e := Effects.HandshakeEffect(c, p, 0, Accepted);
    var o := DriveHandshake(c, p, 0, Accepted);
    Holdoffs.SettlingKeepsTrace(o.core, o.progress, 0);
    EffectSends(c.out, o.core.out, e);
  }

  function HeldScript(): seq<TransportEvent> {
    [Asking(0x03, 0x30), LinkConnected, HidChannelOpened(Control), HidChannelOpened(Interrupt)]
  }

  /** There is a run in which a bootstrap goes out at the very time of a recorded reply, while the holdoff runs. */
  lemma BootstrapsIgnoreTheHoldoff() returns (r: Run, i: nat)
    ensures FreshRun(r) && i < |r.actions| && r.actions[i].DriveConnection?
    ensures r.worlds[i].core.policy.Held(r.actions[i].now)
    ensures NewSends(r.worlds[i].core, r.worlds[i + 1].core) == 1
  {
    hide Sound, FreshRun, Drive, HandleEvent, Attempting, Asking, Perform, NewSends, ChangesTopology;
    var before := TopologyAlmostObserved();
    var h := FirstShake(Periodic).(link := true, control := true);
    var session := Answered(DEFAULT_SESSION, 0x03, 0x30);
    TopologyIsObserved(before.Last().core, before.Last().progress, Periodic, h, session, true, HidChannelOpened(Interrupt));
    var observed := GoEvent(before, 0, Accepted);
    DriveBootstrapsWhileHeld(observed.Last().core, observed.Last().progress);
    r := GoDrive(observed, 0, Accepted);
    i := |observed.actions|;
    StillFresh(before, r);
    RunLengths(observed);
  }

  lemma TopologyAlmostObserved() returns (r: Run)
    ensures InBatch(r, [Some(SessionEvent(1, HidChannelOpened(Interrupt)))])
    ensures Pairing(r.Last(), Periodic, FirstShake(Periodic).(link := true, control := true),
                    Answered(DEFAULT_SESSION, 0x03, 0x30), true)
  {
    hide InBatch, Pairing, Asking;
    var events := Tagged(HeldScript());
    var session := Answered(DEFAULT_SESSION, 0x03, 0x30);
    r := StartPairing(Periodic, HeldScript());
    assert events == [Some(SessionEvent(1, Asking(0x03, 0x30)))] + events[1..];
    r := AnswerHost(r, Periodic, FirstShake(Periodic), DEFAULT_SESSION, false, 0x03, 0x30, events[1..]);
    assert events[1..] == [Some(SessionEvent(1, LinkConnected))] + events[2..];
    r := ObserveTopologyEvent(r, Periodic, FirstShake(Periodic), session, true, LinkConnected, events[2..]);
    assert events[2..] == [Some(SessionEvent(1, HidChannelOpened(Control)))] + events[3..];
    r := ObserveTopologyEvent(r, Periodic, FirstShake(Periodic).(link := true), session, true,
                              HidChannelOpened(Control), events[3..]);
    assert events[3..] == [Some(SessionEvent(1, HidChannelOpened(Interrupt)))];
  }

  // ---- A worker that spins ----

  /** The end of a step that found the topology incomplete. */
  lemma FinishWaiting(r: Run) returns (r': Run)
    requires InBatch(r, []) && Pairing(r.Last(), Periodic, FirstShake(Periodic), DEFAULT_SESSION, true)
    ensures r'.worlds != [] && Sound(r') && r'.Extends(r) && r'.Last().phase.Idle? && r'.Last().time == 0
    ensures r'.Last().core == r.Last().core
  {
    hide Sound, FreshRun, Drive, NextDeadline, Attempting, DueAllowed;
    r' := GoQuietly(r, EndBatch);
    DriveWaits(r'.Last().core, r'.Last().progress, Periodic, FirstShake(Periodic), DEFAULT_SESSION, true, 0);
    r' := GoDrive(r', 0, Accepted);
    NothingIsDue(r'.Last().core);
    r' := GoQuietly(r', Finish);
    r' := GoQuietly(r', Deliver);
  }

  lemma NothingIsDue(c: Core)
    requires Attempting(c, Periodic, FirstShake(Periodic), DEFAULT_SESSION, true)
    ensures !DueAllowed(c) && Stuck(c, TIMEOUT, REPLY_HOLDOFF)
  {
  }

  /** The host has asked for device information and been answered, and nothing else has happened. */
  lemma WorkerGetsStuck() returns (r: Run)
    ensures r.worlds != [] && FreshRun(r) && Sound(r) && r.Last().phase.Idle? && r.Last().time == 0
    ensures Stuck(r.Last().core, TIMEOUT, REPLY_HOLDOFF) && r.Last().core.pending == Some(PairCommand)
  {
    hide Sound, FreshRun, Asking, Stuck;
    r := StartPairing(Periodic, [Asking(0x02, 0)]);
    assert Tagged([Asking(0x02, 0)]) == [Some(SessionEvent(1, Asking(0x02, 0)))] + [];
    var answered := AnswerHost(r, Periodic, FirstShake(Periodic), DEFAULT_SESSION, false, 0x02, 0, []);
    r := FinishWaiting(answered);
    StillFresh(answered, r);
    NothingIsDue(r.Last().core);
  }

  predicate BeforeTimeout(times: seq<Duration>) {
    && (forall k :: 0 <= k < |times| ==> REPLY_HOLDOFF <= times[k] < TIMEOUT)
    && (forall j, k :: 0 <= j < k < |times| ==> times[j] <= times[k])
  }

  /** For any times between the end of the holdoff and the timeout, however many, there is a run of a new worker that takes
      one quiet step at each of them, and after none of these steps does the loop wait: a busy loop of almost ten
      seconds. */
  lemma WorkerSpins(times: seq<Duration>) returns (r: Run, start: nat)
    requires BeforeTimeout(times)
    ensures FreshRun(r) && start < |r.worlds| && r.worlds[start].core.pending == Some(PairCommand)
    ensures r.actions[start..] == QuietSteps(times)
    ensures forall k :: start <= k < |r.worlds| && r.worlds[k].phase.Delivering? ==>
              NeverWaits(r.worlds[k].progress, REPLY_HOLDOFF)
  {
    hide Sound, FreshRun, NeverWaits;
    r, start := SpinningRun(times);
    forall k | start <= k < |r.worlds| && r.worlds[k].phase.Delivering?
      ensures NeverWaits(r.worlds[k].progress, REPLY_HOLDOFF)
    {
      QuietStepsAreQuiet(times, r.actions, start);
      StuckWorkersSpin(r, start, k, TIMEOUT, REPLY_HOLDOFF);
    }
  }

  function QuietSteps(times: seq<Duration>): seq<Action> {
    if times == [] then [] else QuietSteps(times[..|times| - 1]) + QuietActions(times[|times| - 1])
  }

  lemma {:induction false} AllQuiet(times: seq<Duration>)
    requires BeforeTimeout(times)
    ensures forall k :: 0 <= k < |QuietSteps(times)| ==> Quiet(QuietSteps(times)[k], TIMEOUT)
  {
    if times != [] {
      AllQuiet(times[..|times| - 1]);
    }
  }

  lemma QuietStepsAreQuiet(times: seq<Duration>, actions: seq<Action>, start: nat)
    requires BeforeTimeout(times) && start <= |actions| && actions[start..] == QuietSteps(times)
    ensures forall k :: start <= k < |actions| ==> Quiet(actions[k], TIMEOUT)
  {
    AllQuiet(times);
    forall k | start <= k < |actions|
      ensures Quiet(actions[k], TIMEOUT)
    {
      assert actions[k] == actions[start..][k - start];
    }
  }

  lemma {:induction false} SpinningRun(times: seq<Duration>) returns (r: Run, start: nat)
    requires BeforeTimeout(times)
    ensures r.worlds != [] && FreshRun(r) && Sound(r) && |r.worlds| == |r.actions| + 1 && start <= |r.actions|
    ensures r.Last().phase.Idle? && Stuck(r.Last().core, TIMEOUT, REPLY_HOLDOFF)
    ensures r.Last().time == if times == [] then 0 else times[|times| - 1]
    ensures r.worlds[start].phase.Idle? && Stuck(r.worlds[start].core, TIMEOUT, REPLY_HOLDOFF)
    ensures r.worlds[start].core.pending == Some(PairCommand)
    ensures r.actions[start..] == QuietSteps(times)
  {
    hide Sound, FreshRun, NeverWaits;
    if times == [] {
      r := WorkerGetsStuck();
      RunLengths(r);
      start := |r.actions|;
    } else {
      var n := |times| - 1;
      var before;
      before, start := SpinningRun(times[..n]);
      r := QuietStep(before, times[n], TIMEOUT, REPLY_HOLDOFF);
      RunLengths(r);
      assert r.worlds[start] == before.worlds[start];
      assert r.actions[start..] == before.actions[start..] + QuietActions(times[n]);
    }
  }
}
