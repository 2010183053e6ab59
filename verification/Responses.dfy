/** Every dequeued command is answered once: the response in flight over whole runs. */
module Responses {
  import opened Types
  import opened Command
  import opened Invariant
  import opened Machine
  import opened Runs
  import opened Wire
  import opened WorldInvariant

  predicate Dequeues(a: Action) {
    a.Connect? || a.Input?
  }

  /** The commands taken from the slot in the first actions of a run. */
  function Taken(r: Run, i: nat): nat
    requires i <= |r.actions|
  {
    if i == 0 then 0 else Taken(r, i - 1) + if Dequeues(r.actions[i - 1]) then 1 else 0
  }

  /** The results delivered in the first actions of a run. */
  function Delivered(r: Run, i: nat): seq<CommandResult>
    requires i < |r.worlds| && |r.worlds| == |r.actions| + 1
  {
    if i == 0 then []
    else
      var w := r.worlds[i - 1];
      Delivered(r, i - 1) + if r.actions[i - 1].Deliver? && w.progress.result.Some? then [w.progress.result.value] else []
  }

  /** The slot is only read when no response is in flight. */
  lemma DequeueNeedsNoResponse(w: World, a: Action)
    requires WorldInv(w) && Enabled(w, a) && Dequeues(a)
    ensures !w.channel.inFlight && w.progress.result.None? && Perform(w, a).channel.inFlight
  {
    hide Live, ConnectCommand, InputStep;
  }

  lemma OtherActionsKeepResponse(w: World, a: Action)
    requires Enabled(w, a) && !Dequeues(a) && !a.Deliver?
    ensures Perform(w, a).channel.inFlight == w.channel.inFlight
  {
    hide Drive, HandleEvent, RunDue, CloseWorker, FailWorker, CleanUpAfterFailure, Abandon;
  }

  lemma DeliveryTakesResponse(w: World, a: Action)
    requires WorldInv(w) && Enabled(w, a) && a.Deliver?
    ensures w.progress.result.Some? ==> w.channel.inFlight && !Perform(w, a).channel.inFlight
    ensures w.progress.result.None? ==> Perform(w, a).channel.inFlight == w.channel.inFlight
  {
    hide Live;
  }

  function InFlight(w: World): nat {
    if w.channel.inFlight then 1 else 0
  }

  /** At every moment of every run, the delivered results are exactly those of the commands taken so far, in the order
      they were taken, except for the one command in flight. */
  lemma {:induction false} EveryCommandIsAnsweredOnce(r: Run, i: nat)
    requires FreshRun(r) && i < |r.worlds|
    ensures |Delivered(r, i)| + InFlight(r.worlds[i]) == Taken(r, i)
  {
    hide WorldInv, Enabled, Perform;
    if i == 0 {
      NothingInFlightAtFirst(r);
    } else {
      var w, a := r.worlds[i - 1], r.actions[i - 1];
      assert Leads(w, a, r.worlds[i]);
      EveryCommandIsAnsweredOnce(r, i - 1);
      FreshRunKeepsWorldInv(r, i - 1);
      if Dequeues(a) {
        DequeueNeedsNoResponse(w, a);
      } else if a.Deliver? {
        DeliveryTakesResponse(w, a);
      } else {
        OtherActionsKeepResponse(w, a);
      }
    }
  }

  lemma NothingInFlightAtFirst(r: Run)
    requires FreshRun(r)
    ensures r.worlds[0].channel == Channel(false, [], [])
  {
  }

  /** What a run leaves unanswered when it ends: a closed one nothing, since its last result or its interrupted tap is
      the answer of the command in flight; a failed one only the command of a tap; one abandoned when nothing could wake
      it any more, whatever was pending. */
  lemma EndedRunsAnswerTheLastCommand(r: Run, i: nat)
    requires FreshRun(r) && i < |r.worlds|
    ensures var w := r.worlds[i];
            && (w.phase.ClosedDown? ==>
                  |Delivered(r, i)| + (if w.progress.result.Some? then 1 else 0)
                    + (if w.interrupted.Some? then 1 else 0) == Taken(r, i))
            && (w.phase.Broken? ==>
                  |Delivered(r, i)| + (if w.progress.result.Some? then 1 else 0)
                    + (if w.core.tap.Some? then 1 else 0) == Taken(r, i))
            && (w.phase.Abandoned? ==>
                  |Delivered(r, i)| + (if w.core.HasPending() then 1 else 0) == Taken(r, i))
  {
    hide Perform, Enabled, Live;
    EveryCommandIsAnsweredOnce(r, i);
    FreshRunKeepsWorldInv(r, i);
    BrokenHasNoConnectionCommand(r, i);
  }

  lemma FailingAnswersConnection(w: World, a: Action)
    requires WorldInv(w) && Enabled(w, a) && Perform(w, a).phase.Broken?
    ensures Perform(w, a).core.pending.None?
  {
    hide Live, HandleEvent, Drive, InputStep, ConnectCommand, RunDue, FailWorker, CloseWorker, CleanUpAfterFailure;
    if w.fault.Some? {
      FailingReports(w.core, w.progress, w.fault.value);
    }
  }

  lemma BrokenHasNoConnectionCommand(r: Run, i: nat)
    requires FreshRun(r) && i < |r.worlds|
    ensures r.worlds[i].phase.Broken? ==> r.worlds[i].core.pending.None?
  {
    hide Perform, Enabled, WorldInv;
    if i == 0 {
      FreshRunStartsIdle(r);
    } else {
      assert Leads(r.worlds[i - 1], r.actions[i - 1], r.worlds[i]);
      FreshRunKeepsWorldInv(r, i - 1);
      if r.worlds[i].phase.Broken? {
        FailingAnswersConnection(r.worlds[i - 1], r.actions[i - 1]);
      }
    }
  }

  lemma FreshRunStartsIdle(r: Run)
    requires FreshRun(r)
    ensures r.worlds[0].phase.Idle?
  {
  }

  // ---- The command channel ----

  /** The commands of the first actions of a run, in order. */
  function Commands(r: Run, i: nat): seq<RuntimeCommand>
    requires i <= |r.actions|
  {
    if i == 0 then []
    else
      var a := r.actions[i - 1];
      Commands(r, i - 1) + if Dequeues(a) then [CommandOf(a)] else []
  }

  /** What the loop still delivers when a run has ended: the result of its last step, and then the answer of a tap that
      was closed. */
  function LastAnswers(w: World): (answers: seq<CommandResult>) {
    (if w.progress.result.Some? then [w.progress.result.value] else [])
    + (if w.phase.ClosedDown? && w.interrupted.Some? then [Err(w.interrupted.value)] else [])
  }

  lemma ActionsUseChannel(w: World, a: Action)
    requires Enabled(w, a)
    ensures Perform(w, a).channel == if Dequeues(a) then w.channel.Take(CommandOf(a))
                                     else if a.Deliver? then w.channel.Answer(w.progress.result)
                                     else w.channel
  {
    hide ConnectCommand, InputStep, Drive, HandleEvent, RunDue, CloseWorker, FailWorker, CleanUpAfterFailure, Abandon;
  }

  /** The channel of a run holds the commands it handled, in order, and the results its steps delivered. */
  lemma {:induction false} ChannelFollowsRun(r: Run, i: nat)
    requires FreshRun(r) && i < |r.worlds|
    ensures r.worlds[i].channel.taken == Commands(r, i) && r.worlds[i].channel.answered == Delivered(r, i)
  {
    hide WorldInv, Enabled, Perform, CommandOf;
    if i == 0 {
      NothingInFlightAtFirst(r);
    } else {
      assert Leads(r.worlds[i - 1], r.actions[i - 1], r.worlds[i]);
      ChannelFollowsRun(r, i - 1);
      ActionsUseChannel(r.worlds[i - 1], r.actions[i - 1]);
    }
  }

  // ---- A result is never replaced ----

  lemma WorkKeepsResult(w: World, a: Action)
    requires WorldInv(w) && Enabled(w, a) && (a.Event? || a.DriveConnection? || a.Due?) && w.progress.result.Some?
    ensures Perform(w, a).progress.result == w.progress.result
  {
    hide HandleEvent, Drive, RunDue, Live;
    match a
    case Event(now, outcome) =>
      if w.phase.events[0].Some? {
        EventAnswers(w.core, w.progress, w.phase.events[0].value, now, outcome);
      }
    case DriveConnection(now, outcome) => DriveAnswers(w.core, w.progress, now, outcome);
    case Due(now, capacity, outcome) => DueAnswers(w.core, w.progress, now, capacity, outcome);
  }

  lemma EndingKeepsResult(w: World, a: Action)
    requires WorldInv(w) && Enabled(w, a) && Ending(a) && w.progress.result.Some?
    ensures Perform(w, a).progress.result == w.progress.result
  {
    hide CleanUp, CleanUpAfterFailure, MarkFailed, Live;
  }

  /** The assertion that no step produces a second result: once it holds one, nothing but its delivery changes it,
      and no command is taken. */
  lemma ResultsAreNeverReplaced(w: World, a: Action)
    requires WorldInv(w) && Enabled(w, a) && w.progress.result.Some? && !a.Deliver?
    ensures Perform(w, a).progress.result == w.progress.result && !Dequeues(a)
  {
    if a.Event? || a.DriveConnection? || a.Due? {
      WorkKeepsResult(w, a);
    } else if Ending(a) {
      EndingKeepsResult(w, a);
    } else {
      hide Live;
    }
  }
}
