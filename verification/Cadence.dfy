/** The automatic sends of a Periodic worker over whole runs: their number, their grid and the reply holdoff. */
module Cadence {
  import opened Types
  import opened Command
  import opened Evidence
  import opened Machine
  import opened PeriodicPolicies
  import opened Runs
  import opened Scheduler
  import opened Session
  import opened Transport
  import opened Wire
  import opened WorldInvariant

  /** The account of the schedule that is running: its start, the grid points its due ticks have passed (each tick
      passes one point more than it skipped), the sends that due work other than a tap added to the trace, and the time
      of the last due tick. */
  datatype Ledger = Ledger(start: Duration, passed: nat, sends: nat, lastDue: Duration)

  function RecordTick(l: Ledger, p: Policy, now: Duration): Ledger {
    if ReadsCapacity(p, now) then
      var skipped := Tick(p.schedule.value, now).value.1.skipped;
      l.(passed := l.passed + 1 + skipped, lastDue := now)
    else l
  }

  /** Due work that is not the release of a tap: the automatic send of a Periodic worker. */
  predicate Automatic(c: Core, a: Action) {
    a.Due? && c.mode.Periodic? && !TapDue(c, a.now)
  }

  function RecordCadence(l: Ledger, c: Core, a: Action, c': Core): Ledger {
    match a
    case DriveConnection(now, _) => if c.policy.schedule.None? then Ledger(now, 0, 0, now) else l
    case Due(now, _, _) =>
      if Automatic(c, a) then RecordTick(l.(sends := l.sends + NewSends(c, c')), c.policy, now) else l
    case _ => l
  }

  function LedgerOf(r: Run, i: nat): Ledger
    requires i < |r.worlds| && |r.worlds| == |r.actions| + 1
  {
    if i == 0 then Ledger(0, 0, 0, 0)
    else RecordCadence(LedgerOf(r, i - 1), r.worlds[i - 1].core, r.actions[i - 1], r.worlds[i].core)
  }

  predicate Balanced(p: Policy, l: Ledger, time: Duration) {
    p.schedule.Some? ==>
      var s := p.schedule.value;
      && s.period == p.period
      && s.next == l.start + (l.passed + 1) * s.period
      && s.next - s.period <= l.lastDue < s.next
      && l.lastDue <= time && l.sends <= l.passed
  }

  lemma TickBalances(p: Policy, l: Ledger, time: Duration, now: Duration, capacity: bool, sent: nat)
    requires Balanced(p, l, time) && time <= now
    requires sent == if DecideDue(p, now, capacity).1.Send? then 1 else 0
    ensures Balanced(DecideDue(p, now, capacity).0, RecordTick(l.(sends := l.sends + sent), p, now), now)
  {
    if ReadsCapacity(p, now) {
      TickStaysOnGrid(p.schedule.value, now, l.start, l.passed + 1);
    }
  }

  /** The policy decides to send exactly when the trace gets a send. */
  lemma DecisionsAreSends(c: Core, now: Duration, capacity: bool, outcome: SendOutcome)
    ensures var (c', _) := SendAutomatic(c, now, capacity, outcome);
            && c'.policy == DecideDue(c.policy, now, capacity).0
            && NewSends(c, c') == if DecideDue(c.policy, now, capacity).1.Send? then 1 else 0
  {
    var read := c.out.wire + [CapacityRead(capacity)];
    OneMoreSend(c.out.wire, CapacityRead(capacity));
    var (c', _) := SendAutomatic(c, now, capacity, outcome);
    if DecideDue(c.policy, now, capacity).1.Send? {
      OneMoreSend(read, c'.out.wire[|read|]);
      assert c'.out.wire == read + [c'.out.wire[|read|]];
    }
  }

  lemma DueBalances(c: Core, p: Progress, now: Duration, capacity: bool, outcome: SendOutcome, l: Ledger, time: Duration)
    requires Balanced(c.policy, l, time) && time <= now
    ensures var c' := RunDue(c, p, now, capacity, outcome).core;
            Balanced(c'.policy, RecordCadence(l, c, Action.Due(now, capacity, outcome), c'), now)
  {
    hide SendAutomatic, DecideDue, RecordTick, Balanced, NewSends;
    DecisionsAreSends(c, now, capacity, outcome);
    TickBalances(c.policy, l, time, now, capacity, NewSends(c, SendAutomatic(c, now, capacity, outcome).0));
    LaterBalances(c.policy, l, time, now);
  }

  lemma LaterBalances(p: Policy, l: Ledger, time: Duration, now: Duration)
    requires Balanced(p, l, time) && time <= now
    ensures Balanced(p, l, now)
  {
  }

  /** Starting: the first deadline lies one period after the start. */
  lemma StartBalances(p: Policy, now: Duration)
    requires p.schedule.None?
    ensures Balanced(StartWhenUnheld(p, now).0, Ledger(now, 0, 0, now), now)
  {
  }

  predicate SameSchedule(p: Policy, p': Policy) {
    p'.period == p.period && (p'.schedule == p.schedule || p'.schedule.None?)
  }

  lemma SameScheduleBalances(p: Policy, p': Policy, l: Ledger, time: Duration, now: Duration)
    requires Balanced(p, l, time) && SameSchedule(p, p') && time <= now
    ensures Balanced(p', l, now)
  {
  }

  /** Driving a connection starts the schedule, stops it, or leaves it. */
  lemma DrivingSchedules(c: Core, p: Progress, now: Duration, outcome: SendOutcome)
    ensures var p' := Drive(c, p, now, outcome).core.policy;
            SameSchedule(c.policy, p') || (c.policy.schedule.None? && p' == StartWhenUnheld(c.policy, now).0)
  {
    hide StartWhenUnheld;
    if c.connection.Some? {
      HandshakeAnswers(c, p, now, outcome);
      HandshakeKeepsPolicy(c, p, now, outcome);
      var o := DriveHandshake(c, p, now, outcome);
      SettlingSchedules(o.core, o.progress, now);
    }
  }

  lemma HandshakeKeepsPolicy(c: Core, p: Progress, now: Duration, outcome: SendOutcome)
    requires c.connection.Some?
    ensures DriveHandshake(c, p, now, outcome).core.policy == c.policy
  {
  }

  lemma SettlingSchedules(c: Core, p: Progress, now: Duration)
    requires c.connection.Some?
    ensures var p' := SettleReadiness(c, p, now).core.policy;
            SameSchedule(c.policy, p') || (c.policy.schedule.None? && p' == StartWhenUnheld(c.policy, now).0)
  {
  }

  lemma ConnectingSchedules(c: Core, p: Progress, kind: ConnectionCommandKind, timeout: Duration, error: CallResult,
                            now: Duration)
    ensures SameSchedule(c.policy, ConnectCommand(c, p, kind, timeout, error, now).core.policy)
  {
  }

  lemma EventsSchedule(c: Core, p: Progress, event: SessionEvent, now: Duration, outcome: SendOutcome)
    ensures SameSchedule(c.policy, HandleEvent(c, p, event, now, outcome).core.policy)
  {
  }

  lemma RepliesKeepPolicy(c: Core, raw: seq<Byte>, outcome: SendOutcome)
    ensures ReplyToOutput(c, raw, outcome).0.policy == c.policy
    ensures ReplyToOutput(c, raw, outcome).0.tap == c.tap && ReplyToOutput(c, raw, outcome).0.connection == c.connection
  {
  }

  lemma StepBalances(w: World, a: Action, l: Ledger)
    requires Enabled(w, a) && !Ending(a) && Balanced(w.core.policy, l, w.time)
    ensures Balanced(Perform(w, a).core.policy, RecordCadence(l, w.core, a, Perform(w, a).core), Perform(w, a).time)
  {
    match a
    case DriveConnection(_, _) => DriveBalances(w, a, l);
    case Due(_, _, _) => DueIsBalanced(w, a, l);
    case _ => OtherBalances(w, a, l);
  }

  lemma DriveBalances(w: World, a: Action, l: Ledger)
    requires Enabled(w, a) && a.DriveConnection? && Balanced(w.core.policy, l, w.time)
    ensures Balanced(Perform(w, a).core.policy, RecordCadence(l, w.core, a, Perform(w, a).core), Perform(w, a).time)
  {
    hide Drive, Balanced, StartWhenUnheld;
    DrivingSchedules(w.core, w.progress, a.now, a.outcome);
    var p' := Perform(w, a).core.policy;
    if SameSchedule(w.core.policy, p') {
      var l' := RecordCadence(l, w.core, a, Perform(w, a).core);
      if w.core.policy.schedule.None? {
        UnscheduledIsBalanced(p', l', a.now);
      } else {
        SameScheduleBalances(w.core.policy, p', l, w.time, a.now);
      }
    } else {
      StartBalances(w.core.policy, a.now);
    }
  }

  lemma UnscheduledIsBalanced(p: Policy, l: Ledger, time: Duration)
    requires p.schedule.None?
    ensures Balanced(p, l, time)
  {
  }

  lemma DueIsBalanced(w: World, a: Action, l: Ledger)
    requires Enabled(w, a) && a.Due? && Balanced(w.core.policy, l, w.time)
    ensures Balanced(Perform(w, a).core.policy, RecordCadence(l, w.core, a, Perform(w, a).core), Perform(w, a).time)
  {
    hide RunDue, Balanced, RecordTick;
    DueBalances(w.core, w.progress, a.now, a.capacity, a.outcome, l, w.time);
  }

  lemma OtherBalances(w: World, a: Action, l: Ledger)
    requires Enabled(w, a) && !Ending(a) && !a.DriveConnection? && !a.Due? && Balanced(w.core.policy, l, w.time)
    ensures Balanced(Perform(w, a).core.policy, RecordCadence(l, w.core, a, Perform(w, a).core), Perform(w, a).time)
  {
    hide Balanced, ConnectCommand, InputStep, HandleEvent;
    if a.Connect? {
      ConnectingSchedules(w.core, w.progress, a.kind, a.timeout, a.error, a.now);
    } else if a.Input? {
      InputKeepsAttempt(w.core, w.progress, a.command, a.now, a.outcome);
    } else if a.Event? && w.phase.events[0].Some? {
      EventsSchedule(w.core, w.progress, w.phase.events[0].value, a.now, a.outcome);
    }
    SameScheduleBalances(w.core.policy, Perform(w, a).core.policy, l, w.time, Perform(w, a).time);
  }

  lemma {:induction false} RunIsBalanced(r: Run, i: nat)
    requires FreshRun(r) && i < |r.worlds| && Alive(r.worlds[i].phase)
    ensures Balanced(r.worlds[i].core.policy, LedgerOf(r, i), r.worlds[i].time)
  {
    hide Balanced, WorldInv, Enabled, Perform, RecordCadence;
    if i == 0 {
      NewWorldIsUnscheduled(r);
      UnscheduledIsBalanced(r.worlds[0].core.policy, LedgerOf(r, 0), r.worlds[0].time);
    } else {
      var w, a := r.worlds[i - 1], r.actions[i - 1];
      assert Leads(w, a, r.worlds[i]);
      FreshRunKeepsWorldInv(r, i - 1);
      DeadStaysDead(w, a);
      RunIsBalanced(r, i - 1);
      StepBalances(w, a, LedgerOf(r, i - 1));
    }
  }

  lemma NewWorldIsUnscheduled(r: Run)
    requires FreshRun(r)
    ensures r.worlds[0].core.policy.schedule.None?
  {
  }

  // ---- Counting ----

  lemma QuotientIs(x: nat, quotient: nat, divisor: nat)
    requires 0 < divisor && quotient * divisor <= x < (quotient + 1) * divisor
    ensures x / divisor == quotient
  {
    var d := x / divisor;
    assert x == d * divisor + x % divisor;
    if d < quotient {
      OneMoreMultiple(d, quotient, divisor);
    } else if quotient < d {
      OneMoreMultiple(quotient, d, divisor);
    }
  }

  lemma QuotientGrows(x: nat, y: nat, divisor: nat)
    requires 0 < divisor && x <= y
    ensures x / divisor <= y / divisor
  {
    var p, q := x / divisor, y / divisor;
    assert x == p * divisor + x % divisor && y == q * divisor + y % divisor;
    if q < p {
      OneMoreMultiple(q, p, divisor);
    }
  }

  lemma BalanceCountsPeriods(p: Policy, l: Ledger, time: Duration)
    requires Balanced(p, l, time) && p.schedule.Some?
    ensures l.start <= l.lastDue <= time
    ensures l.passed == (l.lastDue - l.start) / p.period
    ensures l.sends <= (time - l.start) / p.period
  {
    assert (l.passed + 1) * p.period == l.passed * p.period + p.period;
    QuotientIs(l.lastDue - l.start, l.passed, p.period);
    QuotientGrows(l.lastDue - l.start, time - l.start, p.period);
  }

  /** In every run of a new worker whose schedule is running: the due ticks since its start have passed exactly the
      whole periods up to the last of them, and there were no more automatic sends than whole periods have gone by. */
  lemma AutomaticSendsKeepThePeriod(r: Run, i: nat)
    requires FreshRun(r) && i < |r.worlds| && Alive(r.worlds[i].phase) && r.worlds[i].core.policy.schedule.Some?
    ensures var l := LedgerOf(r, i);
            var period := r.worlds[i].core.policy.period;
            && l.start <= l.lastDue <= r.worlds[i].time
            && l.passed == (l.lastDue - l.start) / period
            && l.sends <= (r.worlds[i].time - l.start) / period
  {
    hide Perform, Enabled, Balanced;
    RunIsBalanced(r, i);
    BalanceCountsPeriods(r.worlds[i].core.policy, LedgerOf(r, i), r.worlds[i].time);
  }

  /** No automatic send falls within 300 ms after any accepted reply recorded in its session. */
  lemma AutomaticSendsRespectTheHoldoff(r: Run, i: nat)
    requires FreshRun(r) && i < |r.actions| && Alive(r.worlds[i].phase) && r.actions[i].Due?
    requires !TapDue(r.worlds[i].core, r.actions[i].now)
    requires r.worlds[i + 1].core.out.wire != r.worlds[i].core.out.wire
    ensures forall k :: 0 <= k < |RecordOf(r, i).replies| ==>
              RecordOf(r, i).replies[k] + REPLY_HOLDOFF <= r.actions[i].now
  {
    hide Enabled, Perform, WorldInv;
    var w, a := r.worlds[i], r.actions[i];
    assert Leads(w, a, r.worlds[i + 1]);
    RunIsBacked(r, i);
    FreshRunKeepsWorldInv(r, i);
    SilentWhileHeld(w, a);
  }

  lemma SilentWhileHeld(w: World, a: Action)
    requires WorldInv(w) && Enabled(w, a) && a.Due? && !TapDue(w.core, a.now)
    requires Perform(w, a).core.out.wire != w.core.out.wire
    ensures w.core.mode.Periodic? && !w.core.policy.Held(a.now) && w.core.sessions.current.Some?
  {
  }
}
