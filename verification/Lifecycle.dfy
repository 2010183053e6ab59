/** The worker lifecycle (`src/runtime/lifecycle.rs`). */
module Lifecycle {
  import opened Types

  datatype LifecycleCommandError = ShuttingDown | WorkerFailed

  datatype LifecycleAction = BeginCleanup | CloseComplete | NoAction

  function ConnectionEnded(state: LifecycleState): LifecycleState {
    if state.Connecting? || state.Ready? then LifecycleState.Open else state
  }

  function InputCommandError(state: LifecycleState): Option<LifecycleCommandError> {
    match state
    case Closing => Some(ShuttingDown)
    case Failed => Some(WorkerFailed)
    case _ => None
  }

  class LifecycleStateMachine {
    var state: LifecycleState

    constructor ()
      ensures state.Open?
    {
      state := LifecycleState.Open;
    }

    method MarkFailed()
      modifies this
      ensures state.Failed?
    {
      state := LifecycleState.Failed;
    }

    method BeginConnection() returns (begun: bool)
      modifies this
      ensures begun <==> old(state).Open?
      ensures state == if begun then LifecycleState.Connecting else old(state)
    {
      if !state.Open? {
        return false;
      }
      state := LifecycleState.Connecting;
      begun := true;
    }

    method MarkReady() returns (marked: bool)
      modifies this
      ensures marked <==> old(state).Connecting?
      ensures state == if marked then LifecycleState.Ready else old(state)
    {
      if !state.Connecting? {
        return false;
      }
      state := LifecycleState.Ready;
      marked := true;
    }

    method MarkConnectionEnded() returns (ended: bool)
      modifies this
      ensures ended <==> old(state).Connecting? || old(state).Ready?
      ensures state == ConnectionEnded(old(state))
    {
      if !state.Connecting? && !state.Ready? {
        return false;
      }
      state := LifecycleState.Open;
      ended := true;
    }

    method RequestClose() returns (action: LifecycleAction)
      modifies this
      ensures action == if old(state).Closing? then NoAction else BeginCleanup
      ensures state.Closing?
    {
      if state.Closing? {
        return NoAction;
      }
      state := LifecycleState.Closing;
      action := BeginCleanup;
    }

    function CompleteClose(): LifecycleAction
      reads this
    {
      if state.Closing? then CloseComplete else NoAction
    }

    function EnsureInputCommand(): (error: Option<LifecycleCommandError>)
      reads this
      ensures error.None? <==> !state.Closing? && !state.Failed?
      ensures error == InputCommandError(state)
    {
      InputCommandError(state)
    }
  }
}
