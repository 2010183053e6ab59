/** Events of ended sessions change nothing. */
module StaleEvents {
  import opened Types
  import opened Command
  import opened Effects
  import Evidence
  import Handshakes
  import opened Machine
  import PeriodicPolicies
  import opened Runs
  import opened Session
  import opened Transport
  import opened Wire
  import opened WorldInvariant

  // ---- Session ids of a run ----

  /** The sessions begun in the first actions of a run. */
  function Begun(r: Run, i: nat): nat
    requires i <= |r.actions| <= |r.worlds|
  {
    if i == 0 then 0 else Begun(r, i - 1) + if BeginsSession(r.worlds[i - 1], r.actions[i - 1]) then 1 else 0
  }

  lemma ConnectIssues(c: Core, p: Progress, kind: ConnectionCommandKind, timeout: Duration, error: CallResult,
                      now: Duration)
    ensures ConnectCommand(c, p, kind, timeout, error, now).core.sessions.lastIssued
         == if Begins(c, error) then NextId(c.sessions.lastIssued) else c.sessions.lastIssued
  {
  }

  lemma WorkIssuesNothing(w: World, a: Action)
    requires Enabled(w, a) && !a.Connect? && !Ending(a)
    ensures Perform(w, a).core.sessions.lastIssued == w.core.sessions.lastIssued
  {
    hide HandleEvent, Drive, InputStep, RunDue;
    match a
    case Input(command, now, outcome) => Evidence.InputKeepsAttempt(w.core, w.progress, command, now, outcome);
    case Event(now, outcome) =>
      if w.phase.events[0].Some? {
        EventIssuesNothing(w.core, w.progress, w.phase.events[0].value, now, outcome);
      }
    case DriveConnection(now, outcome) => DriveIssuesNothing(w.core, w.progress, now, outcome);
    case Due(now, capacity, outcome) => Evidence.DueKeepsAttempt(w.core, w.progress, now, capacity, outcome);
    case _ =>
  }

  lemma EventIssuesNothing(c: Core, p: Progress, event: SessionEvent, now: Duration, outcome: SendOutcome)
    ensures var s := HandleEvent(c, p, event, now, outcome).core.sessions;
            s == c.sessions || s == EndCurrent(c.sessions)
  {
  }

  lemma DriveIssuesNothing(c: Core, p: Progress, now: Duration, outcome: SendOutcome)
    ensures var s := Drive(c, p, now, outcome).core.sessions;
            s == c.sessions || s == EndCurrent(c.sessions)
  {
    hide PeriodicPolicies.StartWhenUnheld, Handshakes.StepShake;
  }

  lemma StepCountsSessions(w: World, a: Action, n: nat)
    requires Enabled(w, a) && !Ending(a) && w.core.sessions.lastIssued == IdAfter(0, n)
    ensures Perform(w, a).core.sessions.lastIssued == IdAfter(0, n + if BeginsSession(w, a) then 1 else 0)
  {
    hide ConnectCommand;
    if a.Connect? {
      ConnectIssues(w.core, w.progress, a.kind, a.timeout, a.error, a.now);
    } else {
      WorkIssuesNothing(w, a);
    }
  }

  /** The n-th session of a run has the n-th id. */
  lemma {:induction false} SessionsAreNumbered(r: Run, i: nat)
    requires FreshRun(r) && i < |r.worlds| && Alive(r.worlds[i].phase)
    ensures r.worlds[i].core.sessions.lastIssued == IdAfter(0, Begun(r, i))
  {
    hide WorldInv, Enabled, Perform, BeginsSession;
    if i == 0 {
      NewWorldHasNoSession(r);
    } else {
      var w, a := r.worlds[i - 1], r.actions[i - 1];
      assert Leads(w, a, r.worlds[i]);
      FreshRunKeepsWorldInv(r, i - 1);
      DeadStaysDead(w, a);
      SessionsAreNumbered(r, i - 1);
      StepCountsSessions(w, a, Begun(r, i - 1));
    }
  }

  lemma NewWorldHasNoSession(r: Run)
    requires FreshRun(r)
    ensures r.worlds[0].core.sessions == Sessions(0, None)
  {
  }

  /** Two different sessions of one run never share an id, unless 2^64 - 1 begins or more lie between them; so an event
      tagged in the one is not taken for an event of the other. */
  lemma EarlierSessionsAreNeverCurrent(r: Run, i: nat, j: nat, event: TransportEvent)
    requires FreshRun(r) && i <= j < |r.worlds| && Alive(r.worlds[i].phase) && Alive(r.worlds[j].phase)
    requires r.worlds[i].core.sessions.current.Some?
    requires Begun(r, i) < Begun(r, j) && Begun(r, j) - Begun(r, i) < U64_MAX
    ensures !IsCurrent(r.worlds[j].core, SessionEvent(r.worlds[i].core.sessions.current.value, event))
  {
    hide Perform, Enabled;
    FreshRunKeepsWorldInv(r, i);
    FreshRunKeepsWorldInv(r, j);
    SessionsAreNumbered(r, i);
    SessionsAreNumbered(r, j);
    CurrentSessionWasBegun(r, i);
    NearbySessionsHaveDistinctIds(0, Begun(r, i), Begun(r, j));
  }

  lemma CurrentSessionWasBegun(r: Run, i: nat)
    requires FreshRun(r) && i < |r.worlds| && Alive(r.worlds[i].phase) && r.worlds[i].core.sessions.current.Some?
    ensures 0 < Begun(r, i)
  {
    hide Enabled, Perform, WorldInv;
    if i == 0 {
      NewWorldHasNoSession(r);
    } else {
      var w, a := r.worlds[i - 1], r.actions[i - 1];
      assert Leads(w, a, r.worlds[i]);
      FreshRunKeepsWorldInv(r, i - 1);
      DeadStaysDead(w, a);
      if w.core.sessions.current.Some? {
        CurrentSessionWasBegun(r, i - 1);
      } else {
        OnlyBeginningStartsASession(w, a);
      }
    }
  }

  lemma OnlyBeginningStartsASession(w: World, a: Action)
    requires Enabled(w, a) && !Ending(a) && w.core.sessions.current.None? && Perform(w, a).core.sessions.current.Some?
    ensures BeginsSession(w, a)
  {
    hide HandleEvent, Drive, InputStep, RunDue;
    match a
    case Input(command, now, outcome) => Evidence.InputKeepsAttempt(w.core, w.progress, command, now, outcome);
    case Event(now, outcome) =>
      if w.phase.events[0].Some? {
        EventIssuesNothing(w.core, w.progress, w.phase.events[0].value, now, outcome);
      }
    case DriveConnection(now, outcome) => DriveIssuesNothing(w.core, w.progress, now, outcome);
    case Due(now, capacity, outcome) => Evidence.DueKeepsAttempt(w.core, w.progress, now, capacity, outcome);
    case _ =>
  }

  // ---- The rest of a batch ----

  /** With the session ended, the rest of a batch is handled event by event, or cut short by a shutdown; no event has any
      effect. */
  lemma StaleEventIsInert(w: World, a: Action)
    requires Enabled(w, a) && !a.Shutdown?
    requires w.phase.Handling? && w.phase.events != [] && w.core.sessions.current.None? && w.fault.None?
    ensures var w' := Perform(w, a);
            && a.Event? && w'.phase == Handling(w.phase.batch, w.phase.events[1..])
            && w'.core == w.core && w'.progress == w.progress && w'.fault.None?
  {
    hide OutputEvent, DisconnectEvent, ObserveTopology, MarkConnected;
  }

  predicate Disconnects(c: Core, event: SessionEvent) {
    IsCurrent(c, event) && event.event.LinkDisconnected?
  }

  /** Whether an action handles a disconnect of the current session. */
  predicate EndsSession(w: World, a: Action) {
    && a.Event? && w.phase.Handling? && w.phase.events != [] && w.phase.events[0].Some?
    && Disconnects(w.core, w.phase.events[0].value)
  }

  /** Handling a disconnect of the current session ends it, with everything that belongs to it, and shows the reason; it
      sends nothing and commits nothing. */
  lemma DisconnectEndsSession(w: World, a: Action)
    requires Enabled(w, a) && EndsSession(w, a)
    ensures var w' := Perform(w, a);
            && w'.core.sessions.current.None? && !w'.core.connected && w'.fault.None?
            && w'.core.connection.None? && w'.core.tap.None?
            && w'.core.policy.schedule.None? && w'.core.policy.holdoff.None?
            && w'.core.out.status.lastDisconnectReason == w.phase.events[0].value.event.reason
            && w'.core.out.wire == w.core.out.wire && w'.core.input == w.core.input
            && w'.phase == Handling(w.phase.batch, w.phase.events[1..])
  {
  }

  /** Once a disconnect of the current session has been handled, every action up to the end of its batch, unless a
      shutdown comes first, is the handling of one more event, and none of them changes the worker, the transport or the
      step's report. After the last one the batch ends. */
  lemma {:induction false} RestOfBatchIsInert(r: Run, i: nat, j: nat)
    requires r.Valid() && i < j < |r.worlds| && EndsSession(r.worlds[i], r.actions[i])
    requires j - i <= |r.worlds[i].phase.events|
    requires forall k :: i < k < j ==> !r.actions[k].Shutdown?
    ensures forall k :: i < k < j ==> r.actions[k].Event?
    ensures r.worlds[j].core.sessions.current.None? && r.worlds[j].fault.None?
    ensures r.worlds[j].core == r.worlds[i + 1].core && r.worlds[j].progress == r.worlds[i + 1].progress
    ensures r.worlds[j].phase == Handling(r.worlds[i].phase.batch, r.worlds[i].phase.events[j - i..])
    ensures j - i == |r.worlds[i].phase.events| && j < |r.actions| ==> r.actions[j].EndBatch? || r.actions[j].Shutdown?
  {
    hide Perform, Enabled;
    assert Leads(r.worlds[j - 1], r.actions[j - 1], r.worlds[j]);
    if i + 1 == j {
      DisconnectEndsSession(r.worlds[i], r.actions[i]);
    } else {
      RestOfBatchIsInert(r, i, j - 1);
      StaleEventIsInert(r.worlds[j - 1], r.actions[j - 1]);
    }
    if j < |r.actions| {
      assert Leads(r.worlds[j], r.actions[j], r.worlds[j + 1]);
      FinishedBatchEnds(r.worlds[j], r.actions[j]);
    }
  }

  lemma FinishedBatchEnds(w: World, a: Action)
    requires Enabled(w, a) && w.phase.Handling?
    ensures w.phase.events == [] ==> a.EndBatch? || a.Shutdown?
  {
  }
}
