/** The committed input state (`src/runtime/state.rs`). */
module State {
  import opened Types
  import opened Status

  class InputStateStore {
    var committed: InputState
    const status: StatusPublisher

    constructor (status: StatusPublisher)
      ensures committed == NEUTRAL && this.status == status
    {
      committed := NEUTRAL;
      this.status := status;
    }

    function Snapshot(): InputState
      reads this
    {
      committed
    }

    method Commit(next: InputState)
      modifies this, status
      ensures committed == next
      ensures status.state == old(status.state).(snapshot := next)
    {
      committed := next;
      status.SetSnapshot(committed);
    }

    method ResetToNeutral()
      modifies this, status
      ensures committed == NEUTRAL
      ensures status.state == old(status.state).(snapshot := NEUTRAL)
    {
      committed := NEUTRAL;
      status.SetSnapshot(committed);
    }
  }
}
