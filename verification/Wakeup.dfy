/** The wake-up protocol: producers publish and then notify a one-token channel, while the worker steps, delivers and
    waits, in any interleaving (`src/runtime/transport/mod.rs`, `src/runtime/command.rs`, `src/runtime/worker.rs`). */
module Wakeup {
  import opened Types
  import opened Invariant
  import opened Machine
  import opened Runs
  import opened WorldInvariant

  /** Between steps the worker decides whether to wait, and may then be blocked. */
  datatype Waiting = NotWaiting | Deciding | Blocked

  /** The worker and what it shares with its producers. `owed` counts producers that have published but not yet
      notified; `checked` says that the worker has found no shutdown request since its last connection drive or due work. */
  datatype Shared = Shared(world: World, waiting: Waiting, checked: bool, queued: bool, events: nat, shutdown: bool,
                           token: bool, owed: nat)

  datatype Move =
    | PublishCommand
    | PublishEvent
    | PublishShutdown
    | Notify
    | Act(action: Action)
    | Check
    | Block
    | Wake
    | TimeOut

  /** What an action of the worker needs from the shared state, and when a blocked worker cannot act. */
  predicate Permitted(s: Shared, a: Action) {
    match a
    case StepBegins => !s.waiting.Blocked?
    case WaitFails => s.waiting.Blocked?
    case NoCommand => !s.queued
    case Connect(_, _, _, _) => s.queued
    case Input(_, _, _) => s.queued
    case Poll(Ok(batch)) => |batch| <= s.events && (batch == [] ==> s.events == 0)
    case Finish => s.checked
    case Shutdown(_, _, _) => s.shutdown
    case _ => true
  }

  predicate CanMove(s: Shared, m: Move) {
    match m
    case PublishCommand => !s.queued
    case PublishEvent => true
    case PublishShutdown => !s.shutdown
    case Notify => 0 < s.owed
    case Act(a) => Enabled(s.world, a) && Permitted(s, a)
    case Check => !s.shutdown && (s.world.phase.DueCheck? || s.world.phase.Finishing?)
    case Block => s.waiting.Deciding? && !s.world.progress.immediate
    case Wake => s.waiting.Blocked? && s.token
    case TimeOut => s.waiting.Blocked?
  }

  /** What the worker's action does to the shared state: it takes the command, or the events a poll returns. */
  function Shares(s: Shared, a: Action): Shared {
    match a
    case StepBegins => s.(waiting := NotWaiting, checked := false)
    case WaitFails => s.(waiting := NotWaiting)
    case Connect(_, _, _, _) => s.(queued := false)
    case Input(_, _, _) => s.(queued := false)
    case Poll(Ok(batch)) => s.(events := if |batch| <= s.events then s.events - |batch| else 0)
    case DriveConnection(_, _) => s.(checked := false)
    case Due(_, _, _) => s.(checked := false)
    case Deliver => s.(waiting := Deciding)
    case Shutdown(_, _, _) => s.(shutdown := false)
    case _ => s
  }

  ghost function Moved(s: Shared, m: Move): Shared {
    match m
    case PublishCommand => s.(queued := true, owed := s.owed + 1)
    case PublishEvent => s.(events := s.events + 1, owed := s.owed + 1)
    case PublishShutdown => s.(shutdown := true, owed := s.owed + 1)
    case Notify => if s.owed == 0 then s else s.(token := true, owed := s.owed - 1)
    case Act(a) => Shares(s, a).(world := Perform(s.world, a))
    case Check => s.(checked := true)
    case Block => s.(waiting := Blocked)
    case Wake => s.(waiting := NotWaiting, token := false)
    case TimeOut => s.(waiting := NotWaiting)
  }

  /** A wake-up is on its way. */
  predicate Alarmed(s: Shared) {
    s.token || 0 < s.owed
  }

  /** The worker has looked at the slot in this step and found it empty. */
  predicate PassedSlot(s: Shared) {
    s.world.slotEmpty && (s.world.phase.Commanded? || Settled(s.world.phase) || !s.waiting.NotWaiting?)
  }

  predicate PassedEvents(s: Shared) {
    s.world.drained && (AfterPolling(s.world.phase) || !s.waiting.NotWaiting?)
  }

  predicate PassedShutdown(s: Shared) {
    s.checked
    && (s.world.phase.DueCheck? || s.world.phase.Finishing? || s.world.phase.Delivering? || !s.waiting.NotWaiting?)
  }

  /** Whatever appeared behind the worker's back has raised the alarm, or will. */
  predicate NothingLost(s: Shared) {
    && (PassedSlot(s) && s.queued ==> Alarmed(s))
    && (PassedEvents(s) && 0 < s.events ==> Alarmed(s))
    && (PassedShutdown(s) && s.shutdown ==> Alarmed(s))
  }

  /** A worker about to wait has looked at everything it could process. */
  predicate Attentive(s: Shared) {
    && (!s.waiting.NotWaiting? ==>
          && s.world.phase.Idle?
          && (!s.world.progress.immediate ==>
                s.world.drained && s.checked && (s.world.core.HasPending() || s.world.slotEmpty)))
    && (s.waiting.Blocked? ==> !s.world.progress.immediate)
    && (s.world.phase.Delivering? ==> s.checked)
  }

  ghost predicate SharedInv(s: Shared) {
    WorldInv(s.world) && NothingLost(s) && Attentive(s)
  }

  /** While something is left to process, a blocked worker is about to be woken. */
  lemma BlockedWorkerIsAlarmed(s: Shared)
    requires SharedInv(s) && s.waiting.Blocked?
    requires s.shutdown || 0 < s.events || (s.queued && !s.world.core.HasPending())
    ensures Alarmed(s)
  {
  }

  // ---- Every move keeps it ----

  lemma ProducersKeepSharedInv(s: Shared, m: Move)
    requires SharedInv(s) && CanMove(s, m) && !m.Act?
    ensures SharedInv(Moved(s, m))
  {
    hide WorldInv;
  }

  /** What an action of the worker does to what it has passed. */
  lemma ActionsAttend(w: World, a: Action)
    requires WorldInv(w) && Enabled(w, a)
    ensures var w' := Perform(w, a);
            && (w'.slotEmpty ==> (w.slotEmpty && !a.StepBegins?) || a.NoCommand?)
            && (w'.drained ==> (w.drained && !a.StepBegins? && !(a.Poll? && a.events.Ok?)) || a == Poll(Ok([])))
  {
    hide Live, ConnectCommand, InputStep, HandleEvent, Drive, RunDue, CloseWorker, FailWorker, CleanUpAfterFailure;
  }

  /** Delivering and waiting leave the worker as it is. */
  lemma DeliveryKeepsWorker(w: World, a: Action)
    requires Enabled(w, a) && (a.Deliver? || a.Wait?)
    ensures var w' := Perform(w, a);
            && w'.core == w.core && w'.progress.immediate == w.progress.immediate
            && w'.slotEmpty == w.slotEmpty && w'.drained == w.drained
  {
  }

  lemma ActingIsAttentive(s: Shared, a: Action)
    requires SharedInv(s) && CanMove(s, Act(a))
    ensures Attentive(Moved(s, Act(a)))
  {
    hide Perform, Enabled, Live;
    ActionsMovePhases(s.world, a);
    PollingEnds(s.world, a);
    PhasesComeFromActions(s.world, a);
    if a.Deliver? || a.Wait? {
      DeliveryKeepsWorker(s.world, a);
      ActionsComeFromPhases(s.world, a);
    }
  }

  lemma ActionsComeFromPhases(w: World, a: Action)
    requires Enabled(w, a)
    ensures a.Deliver? ==> w.phase.Delivering?
    ensures a.Wait? || a.WaitFails? || a.StepBegins? ==> w.phase.Idle?
    ensures a.EndBatch? ==> w.phase.Handling?
    ensures a.Finish? ==> w.phase.Finishing? || w.phase.DueCheck?
    ensures a.Poll? ==> w.phase.Polling?
    ensures a.NoCommand? || a.Connect? || a.Input? ==> w.phase.Started?
    ensures a.Settle? ==> w.phase.Commanded? || (w.phase.Started? && w.core.HasPending())
  {
  }

  lemma ActingLosesNoCommand(s: Shared, a: Action)
    requires SharedInv(s) && CanMove(s, Act(a))
    ensures var s' := Moved(s, Act(a)); PassedSlot(s') && s'.queued ==> Alarmed(s')
  {
    hide Perform, Enabled, Live;
    ActionsAttend(s.world, a);
    ActionsMovePhases(s.world, a);
    PollingEnds(s.world, a);
    PhasesComeFromActions(s.world, a);
    ActionsComeFromPhases(s.world, a);
  }

  lemma ActingLosesNoEvent(s: Shared, a: Action)
    requires SharedInv(s) && CanMove(s, Act(a))
    ensures var s' := Moved(s, Act(a)); PassedEvents(s') && 0 < s'.events ==> Alarmed(s')
  {
    hide Perform, Enabled, Live;
    ActionsAttend(s.world, a);
    ActionsMovePhases(s.world, a);
    PollingEnds(s.world, a);
    PhasesComeFromActions(s.world, a);
    ActionsComeFromPhases(s.world, a);
  }

  lemma ActingLosesNoShutdown(s: Shared, a: Action)
    requires SharedInv(s) && CanMove(s, Act(a))
    ensures var s' := Moved(s, Act(a)); PassedShutdown(s') && s'.shutdown ==> Alarmed(s')
  {
    hide Perform, Enabled, Live;
    ActionsAttend(s.world, a);
    ActionsMovePhases(s.world, a);
    PollingEnds(s.world, a);
    PhasesComeFromActions(s.world, a);
    ActionsComeFromPhases(s.world, a);
  }

  lemma ActingLosesNothing(s: Shared, a: Action)
    requires SharedInv(s) && CanMove(s, Act(a))
    ensures NothingLost(Moved(s, Act(a)))
  {
    hide SharedInv, CanMove, Moved, PassedSlot, PassedEvents, PassedShutdown;
    ActingLosesNoCommand(s, a);
    ActingLosesNoEvent(s, a);
    ActingLosesNoShutdown(s, a);
  }

  lemma MovesKeepSharedInv(s: Shared, m: Move)
    requires SharedInv(s) && CanMove(s, m)
    ensures SharedInv(Moved(s, m))
  {
    if m.Act? {
      hide NothingLost, Attentive, WorldInv, Perform, Enabled;
      ActingIsAttentive(s, m.action);
      ActingLosesNothing(s, m.action);
      StepKeepsWorldInv(s.world, m.action);
    } else {
      ProducersKeepSharedInv(s, m);
    }
  }

  // ---- Interleavings ----

  /** Any interleaving of producers and the worker. */
  ghost predicate Interleaving(states: seq<Shared>, moves: seq<Move>) {
    && |states| == |moves| + 1
    && (exists mode, period, budget :: 0 < budget && states[0] == NewShared(mode, period, budget))
    && forall k :: 0 <= k < |moves| ==> MovesTo(states[k], moves[k], states[k + 1])
  }

  ghost predicate MovesTo(s: Shared, m: Move, s': Shared) {
    CanMove(s, m) && s' == Moved(s, m)
  }

  function NewShared(mode: Mode, period: Period, budget: nat): Shared {
    Shared(NewWorld(mode, period, budget), NotWaiting, false, false, 0, false, false, 0)
  }

  lemma {:induction false} InterleavingsKeepSharedInv(states: seq<Shared>, moves: seq<Move>, i: nat)
    requires Interleaving(states, moves) && i < |states|
    ensures SharedInv(states[i])
  {
    hide SharedInv, CanMove, Moved;
    if i == 0 {
      NewSharedIsSound(states, moves);
    } else {
      InterleavingsKeepSharedInv(states, moves, i - 1);
      assert MovesTo(states[i - 1], moves[i - 1], states[i]);
      MovesKeepSharedInv(states[i - 1], moves[i - 1]);
    }
  }

  lemma NewSharedIsSound(states: seq<Shared>, moves: seq<Move>)
    requires Interleaving(states, moves)
    ensures SharedInv(states[0])
  {
    hide MovesTo, Perform;
    var mode, period, budget :| 0 < budget && states[0] == NewShared(mode, period, budget);
    NewCoreIsLive(mode, period);
  }

  /** No wake-up is lost: in every interleaving, while a shutdown request, a transport event or a command the worker could
      take is there, a blocked worker has a token waiting or a producer that has yet to notify; and once those have
      notified, the worker can wake. */
  lemma NoLostWakeup(states: seq<Shared>, moves: seq<Move>, i: nat)
    requires Interleaving(states, moves) && i < |states| && states[i].waiting.Blocked?
    requires states[i].shutdown || 0 < states[i].events || (states[i].queued && !states[i].world.core.HasPending())
    ensures states[i].token || 0 < states[i].owed
    ensures states[i].owed == 0 ==> CanMove(states[i], Wake)
  {
    hide MovesTo, WorldInv, NothingLost, Attentive;
    InterleavingsKeepSharedInv(states, moves, i);
    BlockedWorkerIsAlarmed(states[i]);
  }
}
