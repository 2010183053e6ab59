/** What has happened in the current session by the time a Pair or Reconnect succeeds. */
module Evidence {
  import opened Types
  import opened Clock
  import opened Command
  import opened Connection
  import opened Effects
  import opened Handshakes
  import opened Invariant
  import opened Machine
  import opened Output
  import opened PeriodicPolicies
  import opened Protocol
  import opened Readiness
  import opened Runs
  import opened Input
  import opened Sender
  import opened Session
  import opened Taps
  import opened Transport
  import opened Wire
  import opened WorldInvariant

  /** The record of one session, kept from what the transport did, not from what the worker remembers. */
  datatype Record = Record(link: bool, control: bool, interrupt: bool, bootstrapped: bool, requests: seq<Byte>,
                           replies: seq<Duration>, deadline: Duration)
  {
    predicate Topology() {
      link && control && interrupt
    }
  }

  const NOTHING: Record := Record(false, false, false, false, [], [], 0)

  predicate ReplyRecorded(c: Core, raw: seq<Byte>, now: Duration, outcome: SendOutcome) {
    ReplyToOutput(c, raw, outcome).1 == Ok(ReplyAccepted) && now + REPLY_HOLDOFF <= DURATION_MAX
  }

  function RecordEvent(e: Record, c: Core, event: SessionEvent, now: Duration, outcome: SendOutcome): Record {
    if !IsCurrent(c, event) then e
    else
      match event.event
      case LinkConnected => e.(link := true)
      case HidChannelOpened(Control) => e.(control := true)
      case HidChannelOpened(Interrupt) => e.(interrupt := true)
      case HidOutput(raw) => RecordReplyTime(RecordRequest(e, raw), c, raw, now, outcome)
      case _ => e
  }

  /** A host request is a write of at least eleven bytes that starts with 0x01; its id is the eleventh. */
  function RecordRequest(e: Record, raw: seq<Byte>): Record {
    if 11 <= |raw| && raw[0] == 0x01 then e.(requests := e.requests + [raw[10]]) else e
  }

  function RecordReplyTime(e: Record, c: Core, raw: seq<Byte>, now: Duration, outcome: SendOutcome): Record {
    if ReplyRecorded(c, raw, now, outcome) then e.(replies := e.replies + [now]) else e
  }

  /** Whether the trace has just grown by an accepted neutral input report. */
  predicate NeutralAccepted(before: seq<PortCall>, after: seq<PortCall>) {
    && |after| == |before| + 1
    && after[|before|].Sent? && after[|before|].outcome.Accepted?
    && after[|before|].report.InputReport? && after[|before|].report.state == NEUTRAL
  }

  function RecordDrive(e: Record, before: seq<PortCall>, after: seq<PortCall>): Record {
    if e.Topology() && NeutralAccepted(before, after) then e.(bootstrapped := true) else e
  }

  ghost function RecordAction(e: Record, w: World, a: Action): Record {
    match a
    case Connect(_, timeout, error, now) =>
      if Begins(w.core, error) then NOTHING.(deadline := DeadlineAfter(now, timeout)) else e
    case Event(now, outcome) =>
      if w.phase.Handling? && w.phase.events != [] && w.phase.events[0].Some?
      then RecordEvent(e, w.core, w.phase.events[0].value, now, outcome) else e
    case DriveConnection(_, _) => RecordDrive(e, w.core.out.wire, Perform(w, a).core.out.wire)
    case _ => e
  }

  /** The record of the session in force at a point of a run. */
  ghost function RecordOf(r: Run, i: nat): Record
    requires i <= |r.actions| <= |r.worlds|
  {
    if i == 0 then NOTHING else RecordAction(RecordOf(r, i - 1), r.worlds[i - 1], r.actions[i - 1])
  }

  // ---- What the worker remembers is on record ----

  predicate ShakeBacked(h: Shake, e: Record) {
    && h.link == e.link && h.control == e.control && h.interrupt == e.interrupt && h.accepted == e.bootstrapped
    && (e.bootstrapped ==> e.Topology())
    && (h.stopped ==> e.bootstrapped && (h.condition.FirstSubcommand? ==> e.requests != []))
  }

  predicate AttemptBacked(a: Attempted, e: Record) {
    && a.gate.deadline == e.deadline
    && (a.handshake.Some? ==> ShakeBacked(a.handshake.value, e))
    && (a.gate.completion.Some? ==> e.Topology() && e.bootstrapped)
  }

  /** The holdoff is exactly 300 ms after the latest recorded reply. */
  predicate Covers(p: Policy, replies: seq<Duration>) {
    && (forall k :: 0 <= k < |replies| ==> p.holdoff.Some? && replies[k] + REPLY_HOLDOFF <= p.holdoff.value)
    && (p.holdoff.Some? ==> exists k :: 0 <= k < |replies| && p.holdoff.value == replies[k] + REPLY_HOLDOFF)
  }

  /** The worker has observed exactly the requests of its session. */
  ghost predicate Observed(seen: Observations, requests: seq<Byte>) {
    && (forall id: Byte :: id in seen.ids <==> id in requests)
    && seen.last == if requests == [] then None else Some(requests[|requests| - 1])
  }

  ghost predicate Backed(c: Core, e: Record) {
    && (c.connection.Some? ==> AttemptBacked(c.connection.value, e))
    && (c.connection.Some? && c.mode.Periodic? && c.connection.value.gate.completion.Some? ==> e.requests != [])
    && (c.sessions.current.Some? ==> c.connected == e.link && Observed(c.observed, e.requests))
    && (c.mode.Periodic? && c.sessions.current.Some? ==> Covers(c.policy, e.replies))
  }

  lemma ConnectIsBacked(c: Core, p: Progress, kind: ConnectionCommandKind, timeout: Duration, error: CallResult,
                        now: Duration, e: Record)
    requires Backed(c, e)
    ensures Backed(ConnectCommand(c, p, kind, timeout, error, now).core,
                   if Begins(c, error) then NOTHING.(deadline := DeadlineAfter(now, timeout)) else e)
  {
  }

  lemma EventIsBacked(c: Core, p: Progress, event: SessionEvent, now: Duration, outcome: SendOutcome, e: Record)
    requires Live(c) && Backed(c, e)
    ensures Backed(HandleEvent(c, p, event, now, outcome).core, RecordEvent(e, c, event, now, outcome))
  {
    hide OutputEvent, DisconnectEvent, ReplyRecorded, Covers;
    if IsCurrent(c, event) {
      match event.event
      case HidOutput(raw) => OutputIsBacked(c, p, raw, now, outcome, e);
      case LinkDisconnected(reason) => DisconnectIsBacked(c, p, reason, e);
      case _ =>
    }
  }

  lemma OutputIsBacked(c: Core, p: Progress, raw: seq<Byte>, now: Duration, outcome: SendOutcome, e: Record)
    requires Backed(c, e)
    ensures Backed(OutputEvent(c, p, raw, now, outcome).core,
                   RecordReplyTime(RecordRequest(e, raw), c, raw, now, outcome))
  {
    hide ReplyToOutput, RecordOutput, RecordReply, Observed, Covers, RecordRequest;
    var (c', completion) := ReplyToOutput(c, raw, outcome);
    RecordingMovesPolicy(c', p, completion, now);
    RequestsAreKept(e, raw);
    if c.sessions.current.Some? {
      ReplyObserves(c, raw, outcome, e);
      if c.mode.Periodic? {
        RecordingCovers(c.policy, e.replies, now);
      }
    } else {
      ReplyMovesLittle(c, raw, outcome);
    }
  }

  lemma RequestsAreKept(e: Record, raw: seq<Byte>)
    ensures var e' := RecordRequest(e, raw);
            e' == e.(requests := e'.requests) && (e.requests != [] ==> e'.requests != [])
  {
  }

  /** A recorded reply sets the holdoff unless a later one has set it. */
  lemma RecordingCovers(p: Policy, replies: seq<Duration>, now: Duration)
    requires Covers(p, replies)
    ensures Covers(RecordReply(p, now).0, if now + REPLY_HOLDOFF <= DURATION_MAX then replies + [now] else replies)
  {
    var p' := RecordReply(p, now).0;
    if p'.holdoff.Some? && p'.holdoff == p.holdoff {
      var k :| 0 <= k < |replies| && p.holdoff.value == replies[k] + REPLY_HOLDOFF;
      assert (replies + [now])[k] == replies[k];
    } else if p'.holdoff.Some? {
      assert (replies + [now])[|replies|] == now;
    }
  }

  lemma RecordingMovesPolicy(c: Core, p: Progress, completion: OutputCompletion, now: Duration)
    ensures RecordOutput(c, p, completion, now).core
         == c.(policy := if c.mode.Periodic? && completion == Ok(ReplyAccepted) then RecordReply(c.policy, now).0
                         else c.policy)
  {
  }

  lemma ReplyMovesLittle(c: Core, raw: seq<Byte>, outcome: SendOutcome)
    ensures var c' := ReplyToOutput(c, raw, outcome).0; c' == c.(out := c'.out, observed := c'.observed)
  {
    hide PrepareReply, Transmit;
  }

  lemma ReplyObserves(c: Core, raw: seq<Byte>, outcome: SendOutcome, e: Record)
    requires Observed(c.observed, e.requests)
    ensures var c' := ReplyToOutput(c, raw, outcome).0;
            && Observed(c'.observed, RecordRequest(e, raw).requests)
            && c' == c.(out := c'.out, observed := c'.observed)
  {
    hide PrepareReply, Transmit;
  }
  lemma DisconnectIsBacked(c: Core, p: Progress, reason: Option<Byte>, e: Record)
    requires Live(c) && Backed(c, e)
    ensures Backed(DisconnectEvent(c, p, reason).0, e)
  {
  }

  lemma DriveHandshakeIsBacked(c: Core, p: Progress, now: Duration, outcome: SendOutcome, e: Record)
    requires Live(c) && Backed(c, e) && c.connection.Some?
    ensures var c' := DriveHandshake(c, p, now, outcome).core;
            Backed(c', RecordDrive(e, c.out.wire, c'.out.wire))
  {
    hide StepShake, RecordDrive, Covers, ShakeBacked;
    var a := c.connection.value;
    DrivesRecordBootstraps(e, c.out.wire, DriveHandshake(c, p, now, outcome).core.out.wire);
    if a.handshake.Some? {
      ObservedWhatWasRequested(c.observed, e.requests);
      ShakeIsBacked(a.handshake.value, c.out, a.sessionId, now, c.observed.ids != iset{}, outcome, e);
    }
  }

  lemma ObservedWhatWasRequested(seen: Observations, requests: seq<Byte>)
    requires Observed(seen, requests)
    ensures seen.ids != iset{} <==> requests != []
  {
    if requests == [] {
      forall id: Byte ensures id !in seen.ids {
        assert id !in requests;
      }
    } else {
      var first := requests[0];
      assert first in requests;
      assert first in seen.ids;
    }
  }

  lemma DrivesRecordBootstraps(e: Record, before: seq<PortCall>, after: seq<PortCall>)
    ensures var e' := RecordDrive(e, before, after); e' == e.(bootstrapped := e'.bootstrapped)
    ensures after == before ==> RecordDrive(e, before, after) == e
    ensures RecordDrive(e, before, after).bootstrapped ==> e.bootstrapped || e.Topology()
  {
  }

  /** A bootstrap is accepted exactly when it is on record. */
  lemma ShakeIsBacked(h: Shake, o: Outbound, id: U64, now: Duration, observedAny: bool, outcome: SendOutcome, e: Record)
    requires ShakeBacked(h, e) && (observedAny ==> e.requests != [])
    ensures var (h', o', _) := StepShake(h, o, id, now, observedAny, outcome);
            ShakeBacked(h', RecordDrive(e, o.wire, o'.wire))
  {
    hide StepShake;
    DueBootstrapsAreTried(h, o, id, now, observedAny, outcome);
    StepsKeepTopology(h, o, id, now, observedAny, outcome);
  }

  lemma StepsKeepTopology(h: Shake, o: Outbound, id: U64, now: Duration, observedAny: bool, outcome: SendOutcome)
    ensures var (h', o', _) := StepShake(h, o, id, now, observedAny, outcome);
            && h'.link == h.link && h'.control == h.control && h'.interrupt == h.interrupt && h'.condition == h.condition
            && (o' == o ==> h'.accepted == h.accepted)
            && (h'.stopped && !h.stopped ==>
                  h'.accepted && Satisfied(h.condition, observedAny, o'.sender.session.ProtocolReady()))
  {
  }

  lemma EvaluationIsBacked(c: Core, now: Duration, e: Record)
    requires Live(c) && Backed(c, e) && c.connection.Some?
    ensures Backed(EvaluateReadiness(c, now).0, e)
  {
  }

  lemma SettlingIsBacked(c: Core, p: Progress, now: Duration, e: Record)
    requires Live(c) && Backed(c, e) && c.connection.Some?
    ensures Backed(SettleReadiness(c, p, now).core, e)
  {
    hide EvaluateReadiness;
    EvaluationIsBacked(c, now, e);
  }

  lemma DriveIsBacked(c: Core, p: Progress, now: Duration, outcome: SendOutcome, e: Record)
    requires Live(c) && Backed(c, e)
    ensures var c' := Drive(c, p, now, outcome).core;
            Backed(c', RecordDrive(e, c.out.wire, c'.out.wire))
  {
    if c.connection.Some? && InactiveError(c.connection.value.gate, now, c.sessions).None? {
      DriveHandshakeIsBacked(c, p, now, outcome, e);
      var o := DriveHandshake(c, p, now, outcome);
      if o.fault.None? {
        DriveHandshakePreservesLive(c, p, now, outcome);
        SettlingIsSilent(o.core, o.progress, now);
        SettlingIsBacked(o.core, o.progress, now, RecordDrive(e, c.out.wire, o.core.out.wire));
      }
    }
  }

  /** Input commands and taps touch neither the attempt nor the policy. */
  lemma InputKeepsAttempt(c: Core, p: Progress, command: InputCommand, now: Duration, outcome: SendOutcome)
    ensures var c' := InputStep(c, p, command, now, outcome).core;
            && c'.connection == c.connection && c'.sessions == c.sessions && c'.policy == c.policy && c'.mode == c.mode
            && c'.connected == c.connected && c'.observed == c.observed
  {
    hide CommitAndSend, SendThenCommit, Plan, Pressed, Released, PeriodicPress;
  }

  lemma DueKeepsAttempt(c: Core, p: Progress, now: Duration, capacity: bool, outcome: SendOutcome)
    ensures var c' := RunDue(c, p, now, capacity, outcome).core;
            && c'.connection == c.connection && c'.sessions == c.sessions && c'.mode == c.mode
            && c'.policy.holdoff == c.policy.holdoff && c'.connected == c.connected && c'.observed == c.observed
  {
    hide CommitAndSend, SendInput;
  }

  lemma SameAttemptIsBacked(c: Core, c': Core, e: Record)
    requires Backed(c, e) && c'.connection == c.connection && c'.sessions == c.sessions && c'.mode == c.mode
    requires c'.policy.holdoff == c.policy.holdoff && c'.connected == c.connected && c'.observed == c.observed
    ensures Backed(c', e)
  {
  }

  lemma StepIsBacked(w: World, a: Action, e: Record)
    requires WorldInv(w) && Enabled(w, a) && !Ending(a) && Backed(w.core, e)
    ensures Backed(Perform(w, a).core, RecordAction(e, w, a))
  {
    hide Backed, Live;
    match a
    case Connect(kind, timeout, error, now) => ConnectIsOnRecord(w, a, e);
    case Event(now, outcome) => EventIsOnRecord(w, a, e);
    case DriveConnection(now, outcome) => DriveIsOnRecord(w, a, e);
    case _ => OtherIsOnRecord(w, a, e);
  }

  lemma ConnectIsOnRecord(w: World, a: Action, e: Record)
    requires Enabled(w, a) && a.Connect? && Backed(w.core, e)
    ensures Backed(Perform(w, a).core, RecordAction(e, w, a))
  {
    hide Backed, ConnectCommand;
    ConnectIsBacked(w.core, w.progress, a.kind, a.timeout, a.error, a.now, e);
  }

  lemma EventIsOnRecord(w: World, a: Action, e: Record)
    requires WorldInv(w) && Enabled(w, a) && a.Event? && Backed(w.core, e)
    ensures Backed(Perform(w, a).core, RecordAction(e, w, a))
  {
    hide Backed, HandleEvent, RecordEvent, Live;
    if w.phase.events[0].Some? {
      EventIsBacked(w.core, w.progress, w.phase.events[0].value, a.now, a.outcome, e);
    }
  }

  lemma DriveIsOnRecord(w: World, a: Action, e: Record)
    requires WorldInv(w) && Enabled(w, a) && a.DriveConnection? && Backed(w.core, e)
    ensures Backed(Perform(w, a).core, RecordAction(e, w, a))
  {
    hide Backed, Drive, RecordDrive, Live;
    DriveIsBacked(w.core, w.progress, a.now, a.outcome, e);
  }

  lemma OtherIsOnRecord(w: World, a: Action, e: Record)
    requires Enabled(w, a) && !Ending(a) && !a.Connect? && !a.Event? && !a.DriveConnection? && Backed(w.core, e)
    ensures Backed(Perform(w, a).core, RecordAction(e, w, a))
  {
    hide Backed, InputStep, RunDue;
    if a.Input? {
      InputKeepsAttempt(w.core, w.progress, a.command, a.now, a.outcome);
    } else if a.Due? {
      DueKeepsAttempt(w.core, w.progress, a.now, a.capacity, a.outcome);
    }
    SameAttemptIsBacked(w.core, Perform(w, a).core, e);
  }

  lemma {:induction false} RunIsBacked(r: Run, i: nat)
    requires FreshRun(r) && i < |r.worlds| && Alive(r.worlds[i].phase)
    ensures Backed(r.worlds[i].core, RecordOf(r, i))
  {
    hide Backed, WorldInv, Enabled, Perform, RecordAction;
    if i == 0 {
      NewWorldIsBacked(r);
    } else {
      var w, a := r.worlds[i - 1], r.actions[i - 1];
      assert Leads(w, a, r.worlds[i]);
      FreshRunKeepsWorldInv(r, i - 1);
      DeadStaysDead(w, a);
      RunIsBacked(r, i - 1);
      StepIsBacked(w, a, RecordOf(r, i - 1));
    }
  }

  lemma NewWorldIsBacked(r: Run)
    requires FreshRun(r)
    ensures Backed(r.worlds[0].core, NOTHING)
  {
  }

  // ---- Success ----

  /** What a successful connection command rests on. */
  predicate Earned(e: Record, c: Core, now: Duration) {
    && e.Topology() && e.bootstrapped && now < e.deadline
    && c.lifecycle.Ready? && c.out.sender.session.ProtocolReady()
    && (c.mode.Periodic? ==>
          c.policy.schedule.Some? && forall k :: 0 <= k < |e.replies| ==> e.replies[k] + REPLY_HOLDOFF <= now)
  }

  /** Settling makes the command succeed only with everything in place. */
  lemma SettlingEarnsSuccess(c: Core, p: Progress, now: Duration, e: Record)
    requires Live(c) && Backed(c, e) && c.connection.Some? && p.result.None?
    ensures var o := SettleReadiness(c, p, now);
            o.progress.result == Some(Ok(())) ==> Earned(e, o.core, now)
  {
  }

  lemma DriveEarnsSuccess(c: Core, p: Progress, now: Duration, outcome: SendOutcome, e: Record)
    requires Live(c) && Backed(c, e) && p.result.None?
    ensures var o := Drive(c, p, now, outcome);
            o.progress.result == Some(Ok(())) ==> Earned(RecordDrive(e, c.out.wire, o.core.out.wire), o.core, now)
  {
    hide SettleReadiness, Earned;
    if c.connection.Some? && InactiveError(c.connection.value.gate, now, c.sessions).None? {
      DriveHandshakeIsBacked(c, p, now, outcome, e);
      HandshakeAnswers(c, p, now, outcome);
      var o := DriveHandshake(c, p, now, outcome);
      if o.fault.None? {
        DriveHandshakePreservesLive(c, p, now, outcome);
        SettlingIsSilent(o.core, o.progress, now);
        SettlingEarnsSuccess(o.core, o.progress, now, RecordDrive(e, c.out.wire, o.core.out.wire));
      }
    }
  }

  /** A pending connection command succeeds only by driving the connection. */
  lemma OnlyDrivingSucceeds(w: World, a: Action)
    requires WorldInv(w) && Enabled(w, a)
    ensures w.core.pending.Some? && Perform(w, a).progress.result == Some(Ok(())) ==> a.DriveConnection?
  {
    hide Drive;
  }

  /** In every run of a new worker, a Pair or Reconnect returns Ok only if within its own session and before its
      deadline the link and both channels were observed, a neutral report was accepted after that, and the accepted
      replies have set report mode 0x30 and non-zero lights; in Periodic mode also only once 300 ms have passed since
      every recorded reply and with the report schedule running. */
  lemma ReadinessIsEarned(r: Run, i: nat)
    requires FreshRun(r) && i < |r.actions| && Alive(r.worlds[i].phase)
    requires r.worlds[i].core.pending.Some? && r.worlds[i + 1].progress.result == Some(Ok(()))
    ensures var a := r.actions[i];
            a.DriveConnection? && Earned(RecordOf(r, i + 1), r.worlds[i + 1].core, a.now)
  {
    hide Backed, Earned, Enabled, Perform, RecordDrive, Live;
    var w, a := r.worlds[i], r.actions[i];
    assert Leads(w, a, r.worlds[i + 1]);
    FreshRunKeepsWorldInv(r, i);
    OnlyDrivingSucceeds(w, a);
    RunIsBacked(r, i);
    DriveOfWorld(w, a);
    DriveEarnsSuccess(w.core, w.progress, a.now, a.outcome, RecordOf(r, i));
  }

  lemma DriveOfWorld(w: World, a: Action)
    requires Enabled(w, a) && a.DriveConnection?
    ensures var o := Drive(w.core, w.progress, a.now, a.outcome);
            Perform(w, a).core == o.core && Perform(w, a).progress == o.progress
  {
    hide Drive;
  }

  // ---- The replies behind a ready protocol ----

  /** A series of accepted reports holds a reply to this subcommand with this argument. */
  ghost predicate Replied(reports: seq<Report>, id: Byte, argument: Byte) {
    exists k :: 0 <= k < |reports|
                && reports[k].ReplyReport? && reports[k].id == id
                && reports[k].payload != [] && reports[k].payload[0] == argument
  }

  lemma ReplySetsMode(session: ProtocolSession, report: Report)
    ensures var after := AfterReport(session, report);
            && (after.reportMode != session.reportMode ==>
                  report.ReplyReport? && report.id == 0x03 && report.payload != []
                  && after.reportMode == Some(report.payload[0]))
            && (after.playerLights != session.playerLights ==>
                  report.ReplyReport? && report.id == 0x30 && report.payload != []
                  && after.playerLights == Some(report.payload[0]))
  {
  }

  lemma RepliedStays(reports: seq<Report>, report: Report, id: Byte, argument: Byte)
    requires Replied(reports, id, argument)
    ensures Replied(reports + [report], id, argument)
  {
    var k :| 0 <= k < |reports|
             && reports[k].ReplyReport? && reports[k].id == id
             && reports[k].payload != [] && reports[k].payload[0] == argument;
    assert (reports + [report])[k] == reports[k];
  }

  /** A protocol session shows only what accepted replies have set. */
  lemma {:induction false} SessionShowsReplies(reports: seq<Report>)
    ensures Replay(reports).reportMode.Some? ==> Replied(reports, 0x03, Replay(reports).reportMode.value)
    ensures Replay(reports).playerLights.Some? ==> Replied(reports, 0x30, Replay(reports).playerLights.value)
  {
    if reports != [] {
      var n := |reports| - 1;
      var before, report := reports[..n], reports[n];
      assert reports == before + [report];
      SessionShowsReplies(before);
      hide AfterReport;
      ReplySetsMode(Replay(before), report);
      if Replay(before).reportMode.Some? {
        RepliedStays(before, report, 0x03, Replay(before).reportMode.value);
      }
      if Replay(before).playerLights.Some? {
        RepliedStays(before, report, 0x30, Replay(before).playerLights.value);
      }
      assert reports[n] == report;
    }
  }

  /** A ready controller's session got a reply to report mode 0x30, and one to non-zero player lights, accepted. */
  lemma ReadyProtocolWasReplied(r: Run, i: nat)
    requires FreshRun(r) && i < |r.worlds| && Alive(r.worlds[i].phase)
    requires r.worlds[i].core.out.sender.session.ProtocolReady()
    ensures var wire := r.worlds[i].core.out.wire;
            && SessionStart(r, i) <= |wire|
            && Replied(AcceptedReports(wire[SessionStart(r, i)..]), 0x03, 0x30)
            && exists lights: Byte :: lights != 0 && Replied(AcceptedReports(wire[SessionStart(r, i)..]), 0x30, lights)
  {
    hide Perform, Enabled;
    AcceptanceOnlyCommitment(r, i);
    SessionShowsReplies(AcceptedReports(r.worlds[i].core.out.wire[SessionStart(r, i)..]));
  }
}
