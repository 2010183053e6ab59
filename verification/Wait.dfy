/** Waiting between steps (`src/runtime/worker.rs`). */
module Waiting {
  import opened Types
  import opened Clock
  import opened Machine
  import opened Transport

  datatype WaitRequest = Activity | ActivityOrDeadline(deadline: Duration)

  /** Whether the loop waits before the next step, and for what: never past a deadline it knows of. */
  function WaitRequestFor(p: Progress, now: Duration): (request: Option<WaitRequest>)
    ensures p.immediate ==> request.None?
    ensures request.Some? && p.nextDeadline.Some? ==>
              request.value == ActivityOrDeadline(p.nextDeadline.value) && now < p.nextDeadline.value
    ensures request.None? ==> p.immediate || (p.nextDeadline.Some? && p.nextDeadline.value <= now)
  {
    if p.immediate || (p.nextDeadline.Some? && p.nextDeadline.value <= now) then None
    else if p.nextDeadline.Some? then Some(ActivityOrDeadline(p.nextDeadline.value))
    else Some(Activity)
  }

  class ChannelWorkerWaiter {
    const receiver: ActivityChannel

    constructor (receiver: ActivityChannel)
      ensures this.receiver == receiver
    {
      this.receiver := receiver;
    }

    /** A token that is already there ends the wait at once; a timeout ends it no earlier than the deadline. */
    method Wait(request: WaitRequest, since: Duration) returns (disconnected: bool, timedOut: bool, now: Duration)
      modifies receiver
      ensures since <= now
      ensures old(receiver.token) ==> !disconnected
      ensures timedOut ==> !disconnected && request.ActivityOrDeadline? && request.deadline <= now
      ensures !timedOut ==> !receiver.token
      ensures receiver.waits == old(receiver.waits) + 1
              || (timedOut && receiver.waits == old(receiver.waits) && receiver.token == old(receiver.token))
    {
      match request {
        case Activity =>
          disconnected := receiver.Receive();
          timedOut := false;
          now := ReadClock(since);
        case ActivityOrDeadline(deadline) =>
          now := ReadClock(since);
          if deadline <= now {
            return false, true, now;
          }
          disconnected, timedOut := receiver.ReceiveTimeout();
          now := ReadClock(if timedOut then deadline else now);
          disconnected := disconnected && !timedOut;
      }
    }
  }

  /** One wait, or none if there is something to do at once or the deadline passes before it begins. */
  predicate Waited(p: Progress, since: Duration, now: Duration, before: nat, after: nat) {
    if p.immediate || (p.nextDeadline.Some? && p.nextDeadline.value <= since) then after == before
    else after == before + 1 || (after == before && p.nextDeadline.Some? && p.nextDeadline.value <= now)
  }

  method WaitForNextIteration(p: Progress, since: Duration, waiter: ChannelWorkerWaiter)
    returns (disconnected: bool, now: Duration)
    modifies waiter.receiver
    ensures since <= now
    ensures p.immediate || (p.nextDeadline.Some? && p.nextDeadline.value <= since) ==>
              !disconnected && waiter.receiver.token == old(waiter.receiver.token)
    ensures old(waiter.receiver.token) ==> !disconnected
    ensures Waited(p, since, now, old(waiter.receiver.waits), waiter.receiver.waits)
  {
    now := ReadClock(since);
    disconnected := false;
    var request := WaitRequestFor(p, now);
    if request.Some? {
      var timedOut;
      disconnected, timedOut, now := waiter.Wait(request.value, now);
    }
  }
}
