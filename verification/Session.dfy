/** Connection session ids and event tagging (`src/runtime/session.rs`). */
module Session {
  import opened Types
  import opened Connection
  import opened PeriodicPolicies
  import opened Sender
  import opened State
  import opened Transport

  datatype Sessions = Sessions(lastIssued: U64, current: Option<U64>)

  datatype SessionEvent = SessionEvent(sessionId: U64, event: TransportEvent)

  /** The id after `last`, wrapping past zero: ids are never zero. */
  function NextId(last: U64): (next: U64)
    ensures next != 0
  {
    if last == U64_MAX then 1 else last + 1
  }

  function Issue(s: Sessions): Sessions {
    Sessions(NextId(s.lastIssued), Some(NextId(s.lastIssued)))
  }

  function EndCurrent(s: Sessions): Sessions {
    s.(current := None)
  }

  class ConnectionSessions {
    var lastIssued: U64
    var current: Option<U64>

    constructor ()
      ensures State() == Sessions(0, None)
    {
      lastIssued, current := 0, None;
    }

    function State(): Sessions
      reads this
    {
      Sessions(lastIssued, current)
    }

    method BeginPeriodic(sender: ReportSender, policy: PeriodicPolicy, observed: ObservedSubcommands,
                         input: InputStateStore, port: TransportPort) returns (next: U64)
      requires observed.Valid() && sender.Mirrored() && sender.status == input.status
      modifies this, sender, policy, observed, observed.words, input, input.status
      ensures policy.Value() == Stopped(old(policy.Value())) && policy.Repr() == {policy}
      ensures State() == Issue(old(State())) && next == lastIssued
      ensures input.committed == NEUTRAL && observed.State() == NOTHING_OBSERVED
      ensures sender.Out(port) == ResetOutbound(old(sender.Out(port)))
    {
      next := PrepareNext();
      policy.StopSession();
      Commit(next, sender, observed, input, port);
    }

    method BeginDirect(sender: ReportSender, observed: ObservedSubcommands, input: InputStateStore, port: TransportPort)
      returns (next: U64)
      requires observed.Valid() && sender.Mirrored() && sender.status == input.status
      modifies this, sender, observed, observed.words, input, input.status
      ensures State() == Issue(old(State())) && next == lastIssued
      ensures input.committed == NEUTRAL && observed.State() == NOTHING_OBSERVED
      ensures sender.Out(port) == ResetOutbound(old(sender.Out(port)))
    {
      next := PrepareNext();
      Commit(next, sender, observed, input, port);
    }

    method PrepareNext() returns (next: U64)
      ensures next == NextId(lastIssued)
    {
      // The wrapping increment gives zero only at the largest id.
      var wrapped := (lastIssued + 1) % (U64_MAX + 1);
      next := if wrapped == 0 then 1 else wrapped;
    }

    method Commit(next: U64, sender: ReportSender, observed: ObservedSubcommands, input: InputStateStore,
                  port: TransportPort)
      requires observed.Valid() && sender.Mirrored() && sender.status == input.status
      modifies this, sender, observed, observed.words, input, input.status
      ensures State() == Sessions(next, Some(next))
      ensures input.committed == NEUTRAL && observed.State() == NOTHING_OBSERVED
      ensures sender.Out(port) == ResetOutbound(old(sender.Out(port)))
    {
      sender.ResetForNewSession(port);
      observed.Reset();
      input.ResetToNeutral();
      lastIssued, current := next, Some(next);
    }

    method EndSession(sessionId: U64) returns (ended: bool)
      modifies this
      ensures ended <==> old(current) == Some(sessionId)
      ensures State() == if ended then EndCurrent(old(State())) else old(State())
    {
      if current != Some(sessionId) {
        return false;
      }
      current := None;
      ended := true;
    }

    function TagCurrent(event: TransportEvent): Option<SessionEvent>
      reads this
    {
      if current.Some? then Some(SessionEvent(current.value, event)) else None
    }

    function TakeCurrent(event: SessionEvent): Option<TransportEvent>
      reads this
    {
      if Some(event.sessionId) == current then Some(event.event) else None
    }
  }

  /** A new session: fresh sender commit, neutral snapshot; counters and the trace go on. */
  function ResetOutbound(o: Outbound): Outbound {
    var reset := ResetSender(o);
    reset.(status := reset.status.(snapshot := NEUTRAL))
  }

  /** The id after `n` further sessions. */
  function IdAfter(last: U64, n: nat): U64 {
    if n == 0 then last else NextId(IdAfter(last, n - 1))
  }

  lemma {:induction false} IdAfterClosedForm(last: U64, n: nat)
    requires 0 < n
    ensures IdAfter(last, n) == (last + n - 1) % U64_MAX + 1
  {
    if n == 1 {
      assert IdAfter(last, 0) == last;
      FirstId(last);
    } else {
      IdAfterClosedForm(last, n - 1);
      NextIdIs(last + n - 2, IdAfter(last, n - 1));
    }
  }

  lemma FirstId(last: U64)
    ensures NextId(last) == last % U64_MAX + 1
  {
    UniqueRemainder(last, if last == U64_MAX then 1 else 0, if last == U64_MAX then 0 else last, U64_MAX);
  }

  lemma NextIdIs(x: nat, id: U64)
    requires id == x % U64_MAX + 1
    ensures NextId(id) == (x + 1) % U64_MAX + 1
  {
    SuccessorRemainder(x, U64_MAX);
  }

  lemma SuccessorRemainder(x: nat, divisor: nat)
    requires 0 < divisor
    ensures (x + 1) % divisor == if x % divisor == divisor - 1 then 0 else x % divisor + 1
  {
    var q, r := x / divisor, x % divisor;
    if r == divisor - 1 {
      assert (q + 1) * divisor == q * divisor + divisor;
      UniqueRemainder(x + 1, q + 1, 0, divisor);
    } else {
      UniqueRemainder(x + 1, q, r + 1, divisor);
    }
  }

  lemma OneMoreMultiple(a: int, b: int, divisor: nat)
    requires a < b
    ensures a * divisor + divisor <= b * divisor
  {
    assert b * divisor - a * divisor == (b - a) * divisor;
    assert (b - a) * divisor == (b - a - 1) * divisor + divisor;
  }

  /** Equal remainders are at least one divisor apart. */
  lemma EqualRemaindersAreFarApart(a: nat, b: nat, divisor: nat)
    requires 0 < divisor && a < b && a % divisor == b % divisor
    ensures divisor <= b - a
  {
    var p, q := a / divisor, b / divisor;
    assert a == p * divisor + a % divisor && b == q * divisor + b % divisor;
    if p < q {
      OneMoreMultiple(p, q, divisor);
    } else if q < p {
      OneMoreMultiple(q, p, divisor);
    }
  }

  lemma UniqueRemainder(x: nat, q: nat, r: nat, divisor: nat)
    requires 0 < divisor && x == q * divisor + r && r < divisor
    ensures x % divisor == r
  {
    var p := x / divisor;
    assert x == p * divisor + x % divisor;
    if p < q {
      OneMoreMultiple(p, q, divisor);
    } else if q < p {
      OneMoreMultiple(q, p, divisor);
    }
  }

  lemma RemainderAfterOneCycle(a: nat, divisor: nat)
    requires 0 < divisor
    ensures (a + divisor) % divisor == a % divisor
  {
    var q, r := a / divisor, a % divisor;
    assert (q + 1) * divisor == q * divisor + divisor;
    UniqueRemainder(a + divisor, q + 1, r, divisor);
  }

  /** Two sessions begun fewer than 2^64 - 1 begins apart never share an id, through the wrap. */
  lemma NearbySessionsHaveDistinctIds(last: U64, i: nat, j: nat)
    requires 0 < i < j && j - i < U64_MAX
    ensures IdAfter(last, i) != IdAfter(last, j)
  {
    IdAfterClosedForm(last, i);
    IdAfterClosedForm(last, j);
    if IdAfter(last, i) == IdAfter(last, j) {
      EqualRemaindersAreFarApart(last + i - 1, last + j - 1, U64_MAX);
    }
  }

  /** The bound is exact: a full cycle of begins returns to the same id. */
  lemma IdsRepeatAfterAFullCycle(last: U64, i: nat)
    requires 0 < i
    ensures IdAfter(last, i) == IdAfter(last, i + U64_MAX)
  {
    IdAfterClosedForm(last, i);
    IdAfterClosedForm(last, i + U64_MAX);
    RemainderAfterOneCycle(last + i - 1, U64_MAX);
    assert last + (i + U64_MAX) - 1 == (last + i - 1) + U64_MAX;
  }
}
