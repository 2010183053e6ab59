/** What the transport trace of any run says: which reports a session got accepted, which errors ended the run, and
    how it was closed. */
module Wire {
  import opened Types
  import opened Command
  import opened Effects
  import opened Invariant
  import opened Machine
  import opened Protocol
  import opened Runs
  import opened Sender
  import opened Transport
  import opened WorldInvariant

  // ---- One action ----

  /** Actions of a live worker that neither begin a session nor end the run. */
  predicate Working(a: Action) {
    !a.Connect? && !Ending(a)
  }

  predicate Ending(a: Action) {
    a.Shutdown? || a.Fail? || a.WaitFails? || a.CleanUpFailed?
  }

  /** The fault a step is left with: the terminal error of its effect, or a bootstrap point that does not fit. */
  predicate FaultsWith(w: World, e: Effect) {
    if w.phase.Stopping?
    then
      && w.fault.Some?
      && (w.fault == TerminalError(e) || (e.Silent? && OverflowFails(Outcome(w.core, w.progress, w.fault), w.time)))
    else TerminalError(e).None?
  }

  predicate HasEffect(w: World, w': World, e: Effect) {
    && Applies(w.core.out, w'.core.out, e)
    && (w.core.mode.Direct? ==> w'.core.input == Committed(w.core.input, e))
    && FaultsWith(w', e)
    && w'.core.mode == w.core.mode
  }

  lemma DirectConnectingIsNeutral(c: Core)
    requires Live(c) && c.mode.Direct? && c.connection.Some?
    ensures c.input == NEUTRAL
  {
  }

  lemma CommandsKeepMode(c: Core, p: Progress, command: InputCommand, now: Duration, outcome: SendOutcome)
    ensures InputStep(c, p, command, now, outcome).core.mode == c.mode
  {
  }

  lemma EventsKeepMode(c: Core, p: Progress, event: Session.SessionEvent, now: Duration, outcome: SendOutcome)
    ensures HandleEvent(c, p, event, now, outcome).core.mode == c.mode
  {
  }

  lemma DrivesKeepMode(c: Core, p: Progress, now: Duration, outcome: SendOutcome)
    ensures Drive(c, p, now, outcome).core.mode == c.mode
  {
  }

  lemma DueWorkKeepsMode(c: Core, p: Progress, now: Duration, capacity: bool, outcome: SendOutcome)
    ensures RunDue(c, p, now, capacity, outcome).core.mode == c.mode
  {
  }

  lemma InputHasEffect(w: World, a: Action) returns (e: Effect)
    requires WorldInv(w) && Enabled(w, a) && a.Input?
    ensures HasEffect(w, Perform(w, a), e)
  {
    hide InputStep, Live;
    CommandsKeepMode(w.core, w.progress, a.command, a.now, a.outcome);
    e := CommandEffect(w.core, w.progress, a.command, a.now, a.outcome);
  }

  lemma EventHasEffect(w: World, a: Action) returns (e: Effect)
    requires WorldInv(w) && Enabled(w, a) && a.Event?
    ensures HasEffect(w, Perform(w, a), e)
  {
    hide HandleEvent, Live;
    e := Silent;
    if w.phase.events[0].Some? {
      EventsKeepMode(w.core, w.progress, w.phase.events[0].value, a.now, a.outcome);
      e := EventEffect(w.core, w.progress, w.phase.events[0].value, a.now, a.outcome);
    }
  }

  lemma DriveHasEffect(w: World, a: Action) returns (e: Effect)
    requires WorldInv(w) && Enabled(w, a) && a.DriveConnection?
    ensures HasEffect(w, Perform(w, a), e)
  {
    hide Drive, Live;
    DrivesKeepMode(w.core, w.progress, a.now, a.outcome);
    e := DriveEffect(w.core, w.progress, a.now, a.outcome);
    if w.core.mode.Direct? && w.core.connection.Some? {
      DirectConnectingIsNeutral(w.core);
    }
  }

  lemma DueHasEffect(w: World, a: Action) returns (e: Effect)
    requires WorldInv(w) && Enabled(w, a) && a.Due?
    ensures HasEffect(w, Perform(w, a), e)
  {
    hide RunDue, Live;
    DueWorkKeepsMode(w.core, w.progress, a.now, a.capacity, a.outcome);
    e := DueEffect(w.core, w.progress, a.now, a.capacity, a.outcome);
  }

  lemma PollHasEffect(w: World, a: Action) returns (e: Effect)
    requires WorldInv(w) && Enabled(w, a) && a.Poll?
    ensures HasEffect(w, Perform(w, a), e)
  {
    hide Live;
    e := Called(Polled(a.events));
  }

  lemma QuietHasEffect(w: World, a: Action) returns (e: Effect)
    requires WorldInv(w) && Enabled(w, a) && Working(a)
    requires !a.Input? && !a.Event? && !a.DriveConnection? && !a.Due? && !a.Poll?
    ensures HasEffect(w, Perform(w, a), e)
  {
    hide Live;
    e := Silent;
  }

  lemma ActionHasEffect(w: World, a: Action) returns (e: Effect)
    requires WorldInv(w) && Enabled(w, a) && Working(a)
    ensures HasEffect(w, Perform(w, a), e)
  {
    hide HasEffect, WorldInv, Enabled, Perform;
    match a
    case Input(_, _, _) => e := InputHasEffect(w, a);
    case Event(_, _) => e := EventHasEffect(w, a);
    case DriveConnection(_, _) => e := DriveHasEffect(w, a);
    case Due(_, _, _) => e := DueHasEffect(w, a);
    case Poll(_) => e := PollHasEffect(w, a);
    case _ => e := QuietHasEffect(w, a);
  }

  // ---- Accepted reports ----

  function AcceptedReports(calls: seq<PortCall>): seq<Report> {
    if calls == [] then []
    else
      var before := AcceptedReports(calls[..|calls| - 1]);
      match calls[|calls| - 1]
      case Sent(report, Accepted) => before + [report]
      case _ => before
  }

  lemma OneMoreCall(calls: seq<PortCall>, call: PortCall)
    ensures AcceptedReports(calls + [call])
         == AcceptedReports(calls) + if call.Sent? && call.outcome.Accepted? then [call.report] else []
  {
  }

  /** The report sends in a trace, accepted or not. */
  function Sends(calls: seq<PortCall>): nat {
    if calls == [] then 0 else Sends(calls[..|calls| - 1]) + if calls[|calls| - 1].Sent? then 1 else 0
  }

  lemma OneMoreSend(calls: seq<PortCall>, call: PortCall)
    ensures Sends(calls + [call]) == Sends(calls) + if call.Sent? then 1 else 0
  {
    assert (calls + [call])[..|calls|] == calls;
  }

  /** An effect is one send if it is a report, and none otherwise. */
  lemma EffectSends(o: Outbound, o': Outbound, e: Effect)
    requires Applies(o, o', e)
    ensures Sends(o'.wire) == Sends(o.wire) + if e.Reported? then 1 else 0
  {
    match e
    case Silent =>
    case Called(call) => OneMoreSend(o.wire, call);
    case Reported(capacityRead, report, outcome) =>
      if capacityRead {
        OneMoreSend(o.wire, CapacityRead(true));
        OneMoreSend(o.wire + [CapacityRead(true)], Sent(report, outcome));
      } else {
        OneMoreSend(o.wire, Sent(report, outcome));
        assert o.wire + [] + [Sent(report, outcome)] == o.wire + [Sent(report, outcome)];
      }
  }

  /** The sends that an action added to the trace. */
  function NewSends(before: Core, after: Core): nat {
    if Sends(before.out.wire) <= Sends(after.out.wire) then Sends(after.out.wire) - Sends(before.out.wire) else 0
  }

  /** The reports an effect got accepted. */
  function AcceptedBy(e: Effect): seq<Report> {
    if e.Reported? && e.outcome.Accepted? then [e.report] else []
  }

  lemma EffectAppends(o: Outbound, o': Outbound, e: Effect, start: nat)
    requires Applies(o, o', e) && start <= |o.wire|
    ensures |o.wire| <= |o'.wire|
    ensures AcceptedReports(o'.wire[start..]) == AcceptedReports(o.wire[start..]) + AcceptedBy(e)
  {
    var calls := o.wire[start..];
    match e
    case Silent =>
    case Called(call) =>
      assert o'.wire[start..] == calls + [call];
      OneMoreCall(calls, call);
    case Reported(capacityRead, report, outcome) =>
      var read := if capacityRead then [CapacityRead(true)] else [];
      assert o'.wire[start..] == (calls + read) + [Sent(report, outcome)];
      OneMoreCall(calls + read, Sent(report, outcome));
      if capacityRead {
        OneMoreCall(calls, CapacityRead(true));
      } else {
        assert calls + read == calls;
      }
  }

  /** The protocol session a series of accepted reports leads to. */
  function Replay(reports: seq<Report>): ProtocolSession {
    if reports == [] then DEFAULT_SESSION
    else AfterReport(Replay(reports[..|reports| - 1]), reports[|reports| - 1])
  }

  /** The state of the last input report, or neutral if there was none. */
  function LastInput(reports: seq<Report>): InputState {
    if reports == [] then NEUTRAL
    else
      match reports[|reports| - 1]
      case InputReport(_, state, _) => state
      case _ => LastInput(reports[..|reports| - 1])
  }

  function CountInputs(reports: seq<Report>): (n: nat)
    ensures n <= |reports|
  {
    if reports == [] then 0
    else CountInputs(reports[..|reports| - 1]) + if reports[|reports| - 1].InputReport? then 1 else 0
  }

  function Saturated(n: nat): U64 {
    if n <= U64_MAX then n else U64_MAX
  }

  /** No timer is skipped or repeated. */
  predicate Gapless(reports: seq<Report>) {
    forall i :: 0 <= i < |reports| ==> reports[i].timer == i % 256
  }

  /** What a session's accepted reports say about the worker: the next timer, the protocol session, and in Direct mode
      the committed input. */
  predicate SessionAgrees(c: Core, reports: seq<Report>) {
    && Gapless(reports)
    && c.out.sender.timer == |reports| % 256
    && c.out.sender.session == Replay(reports)
    && (c.mode.Direct? ==> c.input == LastInput(reports))
  }

  /** The acceptance counters go on through every session, and saturate. */
  predicate CountersAgree(c: Core, reports: seq<Report>) {
    && c.out.sender.inputs == Saturated(CountInputs(reports))
    && c.out.sender.replies == Saturated(|reports| - CountInputs(reports))
  }

  lemma EffectKeepsSession(w: World, w': World, e: Effect, reports: seq<Report>)
    requires HasEffect(w, w', e) && SessionAgrees(w.core, reports)
    ensures SessionAgrees(w'.core, reports + AcceptedBy(e))
  {
    if AcceptedBy(e) != [] {
      assert (reports + AcceptedBy(e))[..|reports|] == reports;
    } else {
      assert reports + AcceptedBy(e) == reports;
    }
  }

  lemma EffectKeepsCounters(c: Core, c': Core, e: Effect, reports: seq<Report>)
    requires Applies(c.out, c'.out, e) && CountersAgree(c, reports)
    ensures CountersAgree(c', reports + AcceptedBy(e))
  {
    if AcceptedBy(e) != [] {
      assert (reports + AcceptedBy(e))[..|reports|] == reports;
    } else {
      assert reports + AcceptedBy(e) == reports;
    }
  }

  // ---- Runs ----

  ghost predicate FreshRun(r: Run) {
    && r.Valid()
    && exists mode, period, budget :: 0 < budget && r.worlds[0] == NewWorld(mode, period, budget)
  }

  lemma FreshRunKeepsWorldInv(r: Run, i: nat)
    requires FreshRun(r) && i < |r.worlds|
    ensures WorldInv(r.worlds[i])
  {
    hide Perform, Enabled;
    var mode, period, budget :| 0 < budget && r.worlds[0] == NewWorld(mode, period, budget);
    NewCoreIsLive(mode, period);
    RunKeepsWorldInv(r, i);
  }

  /** A run of a new world stays one however it goes on. */
  lemma StillFresh(r: Run, r': Run)
    requires FreshRun(r) && Sound(r') && r'.Extends(r)
    ensures FreshRun(r')
  {
    assert r'.worlds[0] == r.worlds[0];
  }

  /** Whether an action of a run begins a session. */
  predicate BeginsSession(w: World, a: Action) {
    a.Connect? && Begins(w.core, a.error)
  }

  /** How long the trace was when the latest session of a run began. */
  function SessionStart(r: Run, i: nat): nat
    requires i < |r.worlds| && |r.worlds| == |r.actions| + 1
  {
    if i == 0 then 0
    else if BeginsSession(r.worlds[i - 1], r.actions[i - 1]) then |r.worlds[i].core.out.wire|
    else SessionStart(r, i - 1)
  }

  lemma DeadStaysDead(w: World, a: Action)
    requires WorldInv(w) && Enabled(w, a) && Alive(Perform(w, a).phase)
    ensures Alive(w.phase) && !Ending(a)
  {
    hide Live, HandleEvent, Drive, InputStep, ConnectCommand, RunDue, CloseWorker, FailWorker, CleanUpAfterFailure;
  }

  /** What the trace since `start` and the whole trace say about the worker. */
  predicate History(c: Core, start: nat) {
    && start <= |c.out.wire|
    && SessionAgrees(c, AcceptedReports(c.out.wire[start..]))
    && CountersAgree(c, AcceptedReports(c.out.wire))
  }

  lemma EffectKeepsHistory(w: World, w': World, e: Effect, start: nat)
    requires HasEffect(w, w', e) && History(w.core, start)
    ensures History(w'.core, start)
  {
    hide HasEffect, SessionAgrees, CountersAgree, Applies;
    assert Applies(w.core.out, w'.core.out, e) by { EffectIsApplied(w, w', e); }
    EffectAppends(w.core.out, w'.core.out, e, start);
    EffectKeepsSession(w, w', e, AcceptedReports(w.core.out.wire[start..]));
    EffectAppends(w.core.out, w'.core.out, e, 0);
    assert w.core.out.wire[0..] == w.core.out.wire && w'.core.out.wire[0..] == w'.core.out.wire;
    EffectKeepsCounters(w.core, w'.core, e, AcceptedReports(w.core.out.wire));
  }

  lemma EffectIsApplied(w: World, w': World, e: Effect)
    requires HasEffect(w, w', e)
    ensures Applies(w.core.out, w'.core.out, e)
  {
  }

  lemma ConnectCommandKeepsHistory(c: Core, p: Progress, kind: ConnectionCommandKind, timeout: Duration,
                                   error: CallResult, now: Duration, start: nat)
    requires History(c, start)
    ensures var c' := ConnectCommand(c, p, kind, timeout, error, now).core;
            History(c', if Begins(c, error) then |c'.out.wire| else start)
  {
    hide Replay, LastInput, Saturated, ConnectCommand, AcceptedReports, CountInputs;
    ConnectEffect(c, p, kind, timeout, error, now);
    ConnectKeepsMode(c, p, kind, timeout, error, now);
    var c' := ConnectCommand(c, p, kind, timeout, error, now).core;
    var call := StartCall(kind, error);
    OneMoreCall(c.out.wire, call);
    OneMoreCall(c.out.wire[start..], call);
    assert c'.out.wire[start..] == c.out.wire[start..] + [call];
    assert AcceptedReports(c'.out.wire) == AcceptedReports(c.out.wire);
    assert AcceptedReports(c'.out.wire[start..]) == AcceptedReports(c.out.wire[start..]);
    assert c'.out.wire[|c'.out.wire|..] == [];
    EmptySession();
  }

  lemma EmptySession()
    ensures Replay([]) == DEFAULT_SESSION && LastInput([]) == NEUTRAL && Saturated(0) == 0
    ensures AcceptedReports([]) == [] && CountInputs([]) == 0
  {
  }

  lemma ConnectKeepsMode(c: Core, p: Progress, kind: ConnectionCommandKind, timeout: Duration, error: CallResult,
                         now: Duration)
    ensures ConnectCommand(c, p, kind, timeout, error, now).core.mode == c.mode
  {
  }

  lemma ConnectKeepsHistory(w: World, a: Action, start: nat)
    requires Enabled(w, a) && a.Connect? && History(w.core, start)
    ensures var c' := Perform(w, a).core;
            History(c', if BeginsSession(w, a) then |c'.out.wire| else start)
  {
    hide History, ConnectCommand;
    ConnectCommandKeepsHistory(w.core, w.progress, a.kind, a.timeout, a.error, a.now, start);
  }

  lemma StepKeepsHistory(w: World, a: Action, start: nat)
    requires WorldInv(w) && Enabled(w, a) && !Ending(a) && History(w.core, start)
    ensures var c' := Perform(w, a).core;
            History(c', if BeginsSession(w, a) then |c'.out.wire| else start)
  {
    hide History, WorldInv, Enabled, Perform;
    if a.Connect? {
      ConnectKeepsHistory(w, a, start);
    } else {
      var e := ActionHasEffect(w, a);
      EffectKeepsHistory(w, Perform(w, a), e, start);
    }
  }

  /** In every run of a new worker, for as long as it lives: the reports the current session got accepted carry the
      timers 0, 1, 2, ... modulo 256, the committed protocol session is the replay of exactly those reports, in Direct
      mode the committed input is the state of the last accepted input report or neutral, and the counters are the
      numbers of all accepted reports. */
  lemma {:induction false} AcceptanceOnlyCommitment(r: Run, i: nat)
    requires FreshRun(r) && i < |r.worlds| && Alive(r.worlds[i].phase)
    ensures History(r.worlds[i].core, SessionStart(r, i))
  {
    hide History, WorldInv, Enabled, Perform;
    if i == 0 {
      NewWorldHistory(r);
    } else {
      var w, a := r.worlds[i - 1], r.actions[i - 1];
      assert Leads(w, a, r.worlds[i]);
      FreshRunKeepsWorldInv(r, i - 1);
      DeadStaysDead(w, a);
      AcceptanceOnlyCommitment(r, i - 1);
      StepKeepsHistory(w, a, SessionStart(r, i - 1));
    }
  }

  lemma NewWorldHistory(r: Run)
    requires FreshRun(r)
    ensures History(r.worlds[0].core, 0)
  {
  }
}
