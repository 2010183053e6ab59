/** What the automatic send of a Periodic worker does, told from the schedule and the clock alone. */
module AutomaticSends {
  import opened Types
  import opened Command
  import opened Machine
  import opened PeriodicPolicies
  import Responses
  import opened Runs
  import opened Scheduler
  import opened Sender
  import opened Transport
  import opened Wire
  import opened WorldInvariant

  /** The schedule's point has come, and no holdoff runs. */
  predicate Arrived(p: Policy, now: Duration) {
    && p.schedule.Some? && p.schedule.value.next <= now
    && (p.holdoff.Some? ==> p.holdoff.value <= now)
  }

  /** The outcome of one attempt with the capacity that was read: no report without capacity, and with it exactly one, of
      the committed input. */
  predicate SendsInput(c: Core, p: Progress, now: Duration, capacity: bool, outcome: SendOutcome, o: Outcome) {
    var wire := o.core.out.wire;
    if !capacity then wire == c.out.wire + [CapacityRead(false)] && o.progress == p && o.fault.None?
    else
      && wire == c.out.wire + [CapacityRead(true), Sent(InputReportOf(c.out.sender, c.input, now), outcome)]
      && match outcome
         case Accepted => o.progress == p && o.fault.None?
         case Refused(kind) =>
           && o.progress == p.(errors := p.errors + [PeriodicFailed(PeriodicTransport(kind, None))])
           && o.fault == if kind == SendRejected then None else Some(TransportFailed(kind))
  }

  /** What due work other than a tap's release does. */
  predicate Serves(c: Core, p: Progress, now: Duration, capacity: bool, outcome: SendOutcome, o: Outcome) {
    if c.mode.Direct? then o == Outcome(c, p, None)
    else if c.policy.schedule.None? then o == Outcome(c, p.(errors := p.errors + [PeriodicFailed(PeriodicNotReady)]), None)
    else if !Arrived(c.policy, now) then o == Outcome(c, p, None)
    else
      var s := c.policy.schedule.value;
      if Overflows(s, now)
      then o == Outcome(c, p.(errors := p.errors + [PeriodicFailed(PeriodicScheduler(DeadlineOverflow))]), None)
      else
        && o.core.policy == c.policy.(schedule := Some(Schedule(s.period, NextPoint(s, now))))
        && o.core.input == c.input && o.core.tap == c.tap && SendsInput(c, p, now, capacity, outcome, o)
  }

  /** Whether a send happens, which report it is and when the next one is due: with the schedule's point reached, no
      holdoff and no overflow, the report goes out if and only if the transport has capacity; otherwise nothing does. */
  lemma ServedPointsAreSent(c: Core, p: Progress, now: Duration, capacity: bool, outcome: SendOutcome)
    requires !TapDue(c, now)
    ensures Serves(c, p, now, capacity, outcome, RunDue(c, p, now, capacity, outcome))
  {
    if Arrived(c.policy, now) {
      var s := c.policy.schedule.value;
      DivisionIsCatchUp(s.next, s.period, now);
      TickFailsExactlyWhen(s, now);
    }
  }

  /** Over every run of a new worker: the same of every due check that finds no tap due. */
  lemma EveryServedPointIsSent(r: Run, i: nat)
    requires FreshRun(r) && i < |r.actions| && r.actions[i].Due? && !TapDue(r.worlds[i].core, r.actions[i].now)
    ensures var w, a, w' := r.worlds[i], r.actions[i], r.worlds[i + 1];
            Serves(w.core, w.progress, a.now, a.capacity, a.outcome, Outcome(w'.core, w'.progress, w'.fault))
  {
    hide Serves, WorldInv;
    var w, a := r.worlds[i], r.actions[i];
    assert Leads(w, a, r.worlds[i + 1]);
    DueLands(w, a);
    ServedPointsAreSent(w.core, w.progress, a.now, a.capacity, a.outcome);
  }

  lemma DueLands(w: World, a: Action)
    requires Enabled(w, a) && a.Due?
    ensures var w' := Perform(w, a);
            Outcome(w'.core, w'.progress, w'.fault) == RunDue(w.core, w.progress, a.now, a.capacity, a.outcome)
            && w'.time == a.now
  {
    hide RunDue;
  }

  // ---- No point is missed ----

  /** After a due check the schedule's point lies ahead, unless the holdoff or an overflow kept it, or a tap's release
      came first. */
  predicate LooksAhead(p: Policy, now: Duration, releasedTap: bool) {
    p.schedule.Some? ==>
      now < p.schedule.value.next || p.Held(now) || releasedTap || Overflows(p.schedule.value, now)
  }

  lemma DueLooksAhead(c: Core, p: Progress, now: Duration, capacity: bool, outcome: SendOutcome)
    requires c.mode.Periodic?
    ensures LooksAhead(RunDue(c, p, now, capacity, outcome).core.policy, now, TapDue(c, now))
  {
    hide RunDue, NextPoint;
    if !TapDue(c, now) {
      ServedPointsAreSent(c, p, now, capacity, outcome);
      if Arrived(c.policy, now) {
        PointLiesAhead(c.policy.schedule.value, now);
      }
    }
  }

  lemma PointLiesAhead(s: Schedule, now: Duration)
    requires s.next <= now
    ensures now < NextPoint(s, now) <= now + s.period
  {
  }

  lemma ScheduledWorkIsAllowed(w: World)
    requires WorldInv(w) && Alive(w.phase) && w.core.mode.Periodic? && w.core.policy.schedule.Some?
    ensures DueAllowed(w.core)
  {
  }

  /** No step of a Periodic worker with a schedule finishes without having looked at it: its last action was a due check,
      and that left no point that had come. */
  lemma NoPointIsMissed(r: Run, i: nat)
    requires FreshRun(r) && i < |r.actions| && r.actions[i].Finish?
    requires r.worlds[i].core.mode.Periodic? && r.worlds[i].core.policy.schedule.Some?
    ensures 0 < i && r.actions[i - 1].Due? && r.actions[i - 1].now == r.worlds[i].time
    ensures LooksAhead(r.worlds[i].core.policy, r.worlds[i].time, TapDue(r.worlds[i - 1].core, r.worlds[i].time))
  {
    hide WorldInv, DueAllowed, LooksAhead, RunDue, Perform;
    var w := r.worlds[i];
    assert Leads(w, r.actions[i], r.worlds[i + 1]);
    FreshRunKeepsWorldInv(r, i);
    ScheduledWorkIsAllowed(w);
    assert w.phase.Finishing?;
    Responses.FreshRunStartsIdle(r);
    var v, a := r.worlds[i - 1], r.actions[i - 1];
    assert Leads(v, a, w);
    PhasesComeFromActions(v, a);
    DueLands(v, a);
    KeepsMode(v, a);
    DueLooksAhead(v.core, v.progress, a.now, a.capacity, a.outcome);
  }

  lemma KeepsMode(w: World, a: Action)
    requires Enabled(w, a) && a.Due?
    ensures Perform(w, a).core.mode == w.core.mode
  {
    hide RunDue;
    DueWorkKeepsMode(w.core, w.progress, a.now, a.capacity, a.outcome);
  }
}
