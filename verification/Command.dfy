/** Commands, their errors, and the one-slot command channel (`src/runtime/command.rs`). */
module Command {
  import opened Types
  import opened Input
  import opened Lifecycle
  import opened PeriodicPolicies
  import opened Readiness
  import opened Scheduler
  import opened Taps

  datatype InputCommand =
    | Press(buttons: seq<Button>)
    | Release(buttons: seq<Button>)
    | Tap(buttons: seq<Button>, duration: Duration)
    | Neutral
    | Candidate(state: InputState)

  datatype RuntimeCommand =
    | Pair(timeout: Duration)
    | Reconnect(timeout: Duration)
    | InputCommand(command: InputCommand)

  datatype WorkerCoreError =
    | InvalidLifecycle
    | HandshakeFailed(error: SchedulerError)
    | TransportFailed(kind: TransportErrorKind)

  datatype ConnectionCommandKind = PairCommand | ReconnectCommand

  datatype ConnectionCommandFailure =
    | BeginFailed(error: WorkerCoreError)
    | ReadinessFailed(readiness: ReadinessError)
    | KeyStoreInvalid
    | WorkerHasFailed

  datatype WorkerCommandError =
    | InputRejected(input: InputError)
    | LifecycleRejected(lifecycle: LifecycleCommandError)
    | ConnectionRejected(command: ConnectionCommandKind, failure: ConnectionCommandFailure)
    | PeriodicRejected(periodic: PeriodicError)
    | DirectRejected(direct: DirectError)
    | ShutdownInterrupted
    | DisconnectInterrupted

  type CommandResult = Result<(), WorkerCommandError>

  /** The one-slot channel and the response in flight. Responses are named by the request they answer. */
  datatype CommandRequest = CommandRequest(command: RuntimeCommand, id: nat)

  datatype Delivery = Delivery(id: nat, result: CommandResult)

  datatype EnqueueError = InvariantViolation

  datatype DeliveryError = MissingResponse

  function Ids(deliveries: seq<Delivery>): (ids: seq<nat>)
    ensures |ids| == |deliveries|
    ensures forall i :: 0 <= i < |ids| ==> ids[i] == deliveries[i].id
  {
    if deliveries == [] then [] else Ids(deliveries[..|deliveries| - 1]) + [deliveries[|deliveries| - 1].id]
  }

  /** What has passed through the command channel: the commands taken, the results delivered, and whether the response
      to the last command taken is still in flight. */
  datatype Channel = Channel(inFlight: bool, taken: seq<RuntimeCommand>, answered: seq<CommandResult>) {
    function Take(command: RuntimeCommand): Channel {
      Channel(true, taken + [command], answered)
    }

    function Answer(result: Option<CommandResult>): Channel {
      if result.None? then this else Channel(false, taken, answered + [result.value])
    }
  }

  function Results(deliveries: seq<Delivery>): (results: seq<CommandResult>)
    ensures |results| == |deliveries|
    ensures forall i :: 0 <= i < |results| ==> results[i] == deliveries[i].result
  {
    if deliveries == [] then [] else Results(deliveries[..|deliveries| - 1]) + [deliveries[|deliveries| - 1].result]
  }

  class CommandReceiver {
    var queue: Option<CommandRequest>
    var inFlight: Option<nat>
    ghost var taken: seq<RuntimeCommand>
    ghost var dequeued: seq<nat>
    ghost var delivered: seq<Delivery>

    /** Every dequeued command has been answered, in order, except the one in flight. */
    ghost predicate Valid()
      reads this
    {
      && dequeued == Ids(delivered) + (if inFlight.Some? then [inFlight.value] else [])
      && |taken| == |dequeued|
    }

    ghost function State(): Channel
      reads this
    {
      Channel(inFlight.Some?, taken, Results(delivered))
    }

    constructor ()
      ensures Valid() && queue == None && State() == Channel(false, [], [])
    {
      queue, inFlight := None, None;
      taken, dequeued, delivered := [], [], [];
    }

    method TryEnqueue(request: CommandRequest) returns (error: Option<EnqueueError>)
      requires Valid()
      modifies this`queue
      ensures Valid()
      ensures error.None? <==> old(queue).None?
      ensures queue == if error.None? then Some(request) else old(queue)
    {
      if queue.Some? {
        return Some(InvariantViolation);
      }
      queue := Some(request);
      error := None;
    }

    method TryNext() returns (command: Option<RuntimeCommand>)
      requires Valid()
      modifies this
      ensures Valid() && delivered == old(delivered)
      ensures command.Some? <==> old(inFlight).None? && old(queue).Some?
      ensures command.Some? ==> command.value == old(queue).value.command
      ensures command.Some? ==> inFlight == Some(old(queue).value.id) && queue.None?
      ensures command.Some? ==> dequeued == old(dequeued) + [old(queue).value.id]
      ensures command.Some? ==> State() == old(State()).Take(command.value)
      ensures command.None? ==> inFlight == old(inFlight) && queue == old(queue) && dequeued == old(dequeued)
      ensures command.None? ==> State() == old(State())
    {
      if inFlight.Some? || queue.None? {
        return None;
      }
      var request := queue.value;
      queue := None;
      inFlight := Some(request.id);
      dequeued := dequeued + [request.id];
      taken := taken + [request.command];
      command := Some(request.command);
    }

    method DeliverCompletion(result: CommandResult) returns (error: Option<DeliveryError>)
      requires Valid()
      modifies this
      ensures Valid() && queue == old(queue) && dequeued == old(dequeued) && inFlight.None?
      ensures error.None? <==> old(inFlight).Some?
      ensures delivered == if error.None? then old(delivered) + [Delivery(old(inFlight).value, result)] else old(delivered)
      ensures error.None? ==> State() == old(State()).Answer(Some(result))
    {
      if inFlight.None? {
        return Some(MissingResponse);
      }
      var delivery := Delivery(inFlight.value, result);
      inFlight := None;
      delivered := delivered + [delivery];
      assert delivered[..|delivered| - 1] == old(delivered);
      error := None;
    }

    /** Delivers a step's result, if it has one. */
    method DeliverProgress(result: Option<CommandResult>) returns (error: Option<DeliveryError>)
      requires Valid()
      modifies this
      ensures Valid() && queue == old(queue) && dequeued == old(dequeued)
      ensures error.None? <==> result.Some? ==> old(inFlight).Some?
      ensures inFlight == if result.Some? then None else old(inFlight)
      ensures delivered == if result.Some? && error.None?
                           then old(delivered) + [Delivery(old(inFlight).value, result.value)] else old(delivered)
      ensures error.None? ==> State() == old(State()).Answer(result)
    {
      error := None;
      if result.Some? {
        error := DeliverCompletion(result.value);
      }
    }
  }
}
