/** Saturating time arithmetic, and the monotone clock the worker reads (`src/runtime/clock.rs`). */
module Clock {
  import opened Types

  function ProtocolTimestamp(now: Duration): (ns: U64)
    ensures ns <= now
    ensures ns < now ==> ns == U64_MAX
  {
    if now <= U64_MAX then now else U64_MAX
  }

  function DeadlineAfter(now: Duration, duration: Duration): (deadline: Duration)
    ensures now <= deadline
    ensures deadline < now + duration ==> deadline == DURATION_MAX
    ensures deadline <= now + duration
  {
    if now + duration <= DURATION_MAX then now + duration else DURATION_MAX
  }

  function MinimumDeadline(left: Option<Duration>, right: Option<Duration>): (least: Option<Duration>)
    ensures least.None? <==> left.None? && right.None?
    ensures left.Some? ==> least.Some? && least.value <= left.value
    ensures right.Some? ==> least.Some? && least.value <= right.value
    ensures least.Some? ==> least == left || least == right
  {
    match (left, right)
    case (Some(l), Some(r)) => if r < l then right else left
    case (Some(_), None) => left
    case (None, _) => right
  }

  /** A reading of the monotone clock, taken after the reading `since`: how far it has moved is arbitrary. */
  method ReadClock(since: Duration) returns (now: Duration)
    ensures since <= now
  {
    now :| since <= now;
  }
}
