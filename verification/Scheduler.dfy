/** The absolute-phase report schedule (`src/runtime/scheduler.rs`). */
module Scheduler {
  import opened Types

  datatype TickDecision = NotDue | Due(skipped: U64)

  datatype SchedulerError = ZeroPeriod | DeadlineOverflow

  /** The value of a schedule: its period and the next grid point to serve. */
  datatype Schedule = Schedule(period: Period, next: Duration)

  datatype Grid = Grid(point: nat, passed: nat)

  /** The simple form of a tick: add one period at a time until the deadline lies after `now`. */
  function CatchUp(deadline: nat, period: nat, now: nat): (g: Grid)
    requires 0 < period
    ensures g.point == deadline + g.passed * period
    ensures now < g.point
    ensures deadline <= now ==> 0 < g.passed && g.point - period <= now
    ensures now < deadline ==> g.passed == 0
    decreases if now < deadline then 0 else now - deadline + 1
  {
    if now < deadline then Grid(deadline, 0)
    else
      var g := CatchUp(deadline + period, period, now);
      Grid(g.point, g.passed + 1)
  }

  function Start(startedAt: Duration, period: Duration): Result<Schedule, SchedulerError> {
    if period == 0 then Err(ZeroPeriod)
    else if startedAt + period > DURATION_MAX then Err(DeadlineOverflow)
    else Ok(Schedule(period, startedAt + period))
  }

  /** A tick at `now`, stated with the simple form. A failed tick has no new schedule. */
  function Tick(s: Schedule, now: Duration): Result<(Schedule, TickDecision), SchedulerError>
  {
    if now < s.next then Ok((s, NotDue))
    else
      var g := CatchUp(s.next, s.period, now);
      if g.passed - 1 > U64_MAX || g.point > DURATION_MAX then Err(DeadlineOverflow)
      else Ok((s.(next := g.point), Due(g.passed - 1)))
  }

  /** The grid point after `now` is determined by its position: no other count of periods fits. */
  lemma GridPointIsUnique(deadline: nat, period: nat, now: nat, passed: nat)
    requires 0 < period && deadline <= now
    requires now < deadline + passed * period <= now + period
    ensures CatchUp(deadline, period, now) == Grid(deadline + passed * period, passed)
  {
    var g := CatchUp(deadline, period, now);
    if passed < g.passed {
      MultiplyMonotone(passed + 1, g.passed, period);
      assert false;
    } else if g.passed < passed {
      MultiplyMonotone(g.passed + 1, passed, period);
      assert false;
    }
  }

  lemma MultiplyMonotone(a: nat, b: nat, period: nat)
    requires a <= b
    ensures a * period <= b * period
    ensures (a + 1) * period == a * period + period
  {
  }

  /** The quotient and remainder of the lateness give the same grid point as the simple form. */
  lemma DivisionIsCatchUp(deadline: nat, period: nat, now: nat)
    requires 0 < period && deadline <= now
    ensures CatchUp(deadline, period, now)
         == Grid(now + (period - (now - deadline) % period), (now - deadline) / period + 1)
  {
    var elapsed := now - deadline;
    var quotient := elapsed / period;
    assert elapsed == quotient * period + elapsed % period;
    MultiplyMonotone(quotient, quotient, period);
    GridPointIsUnique(deadline, period, now, quotient + 1);
  }

  /** The first point of the schedule's grid after `now`, by its remainder. */
  function NextPoint(s: Schedule, now: Duration): nat
    requires s.next <= now
  {
    now + (s.period - (now - s.next) % s.period)
  }

  predicate Overflows(s: Schedule, now: Duration)
    requires s.next <= now
  {
    (now - s.next) / s.period > U64_MAX || NextPoint(s, now) > DURATION_MAX
  }

  /** A tick fails exactly when a u64 cannot hold the skip count or a duration the next point. */
  lemma TickFailsExactlyWhen(s: Schedule, now: Duration)
    requires s.next <= now
    ensures Tick(s, now).Err? <==> Overflows(s, now)
  {
    DivisionIsCatchUp(s.next, s.period, now);
  }

  /** A served tick stays on the phase grid, lies strictly after `now`, and counts every point it passed. */
  lemma TickStaysOnGrid(s: Schedule, now: Duration, origin: nat, k: nat)
    requires s.next == origin + k * s.period
    requires Tick(s, now).Ok? && Tick(s, now).value.1.Due?
    ensures var (t, d) := Tick(s, now).value;
            && t.period == s.period
            && t.next == origin + (k + 1 + d.skipped) * s.period
            && t.next - s.period <= now < t.next
  {
  }

  /** After a tick at `now` the next one is due exactly from the grid point that the lateness leaves. */
  lemma NextTickIsDueExactlyWhen(s: Schedule, now: Duration, later: Duration)
    requires Tick(s, now).Ok? && Tick(s, now).value.1.Due?
    ensures Tick(Tick(s, now).value.0, later) == Ok((Tick(s, now).value.0, NotDue)) <==>
            later < now + (s.period - (now - s.next) % s.period)
  {
    DivisionIsCatchUp(s.next, s.period, now);
  }

  /** So two ticks need not be a period apart: one that is late by all but 1 ns is followed by one 1 ns later. */
  lemma TicksCanBeClose(period: Period)
    requires 2 <= period && 2 * period + period <= DURATION_MAX
    ensures var first := Tick(Schedule(period, period), 2 * period - 1);
            && first == Ok((Schedule(period, 2 * period), Due(0)))
            && Tick(first.value.0, 2 * period) == Ok((Schedule(period, 3 * period), Due(0)))
  {
    GridPointIsUnique(period, period, 2 * period - 1, 1);
    GridPointIsUnique(2 * period, period, 2 * period, 1);
  }

  function DurationFromTotalNanos(total: nat): (r: Result<Duration, SchedulerError>)
    ensures total <= DURATION_MAX ==> r == Ok(total)
    ensures DURATION_MAX < total ==> r == Err(DeadlineOverflow)
  {
    var seconds := total / NANOS_PER_SECOND;
    var nanos := total % NANOS_PER_SECOND;
    if seconds > U64_MAX then Err(DeadlineOverflow)
    else Ok(seconds * NANOS_PER_SECOND + nanos)
  }

  class ReportScheduler {
    const period: Period
    var nextDeadline: Duration

    ghost function State(): Schedule
      reads this
    {
      Schedule(period, nextDeadline)
    }

    constructor (s: Schedule)
      ensures State() == s
    {
      period := s.period;
      nextDeadline := s.next;
    }

    static method StartAt(startedAt: Duration, period: Duration) returns (r: Result<ReportScheduler, SchedulerError>)
      ensures match Start(startedAt, period)
              case Ok(s) => r.Ok? && fresh(r.value) && r.value.State() == s
              case Err(e) => r == Err(e)
    {
      if period == 0 {
        return Err(ZeroPeriod);
      }
      if startedAt + period > DURATION_MAX {
        return Err(DeadlineOverflow);
      }
      var scheduler := new ReportScheduler(Schedule(period, startedAt + period));
      r := Ok(scheduler);
    }

    method Step(now: Duration) returns (r: Result<TickDecision, SchedulerError>)
      modifies this
      ensures match Tick(old(State()), now)
              case Ok((s, d)) => r == Ok(d) && State() == s
              case Err(e) => r == Err(e) && State() == old(State())
    {
      if now < nextDeadline {
        return Ok(NotDue);
      }
      DivisionIsCatchUp(nextDeadline, period, now);
      var elapsed := now - nextDeadline;
      var skipped := elapsed / period;
      if skipped > U64_MAX {
        return Err(DeadlineOverflow);
      }
      var untilNextNs := period - elapsed % period;
      var untilNext := DurationFromTotalNanos(untilNextNs);
      if untilNext.Err? {
        return Err(DeadlineOverflow);
      }
      if now + untilNext.value > DURATION_MAX {
        return Err(DeadlineOverflow);
      }
      nextDeadline := now + untilNext.value;
      r := Ok(Due(skipped));
    }
  }
}
