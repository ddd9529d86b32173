/**
 * The client dispatcher: a table from correlation id to a single-assignment
 * completion slot, filled in by the reply-queue consumer, emptied by
 * timeouts, failures and disposal. Asynchrony is modelled as discrete events
 * (`Send`, `OnResponseReceived`, `TimeoutElapsed`, `Dispose`) applied in any
 * order.
 */
module Client {
  import opened Wrappers
  import opened Numerals
  import opened Operations
  import opened Messages
  import opened Broker
  import opened Settings

  /** The state of a `TaskCompletionSource<CalculationResponse>`. */
  datatype SlotState = Waiting | Completed(response: Response) | Canceled

  /** How a call of `AddAsync` and its siblings ends when it throws. */
  datatype ClientError =
    | TimedOut(message: string)
    | CalculationFailed(message: string)
    | TaskCanceled
    | PublishFailed
    /** The `CancellationTokenSource` constructor rejected a timeout below -1 ms. */
    | TimeoutOutOfRange

  /** A completion slot: it leaves `Waiting` at most once and never changes afterwards. */
  class CompletionSlot {
    var state: SlotState

    constructor ()
      ensures state == Waiting
    {
      state := Waiting;
    }

    /** `SetResult`: throws on a slot that is already completed, so callers must know it is waiting. */
    method SetResult(response: Response)
      requires state == Waiting
      modifies this
      ensures state == Completed(response)
    {
      state := Completed(response);
    }

    /** `TrySetCanceled`: cancels a waiting slot; a completed one is left as it is. */
    method TrySetCanceled() returns (changed: bool)
      modifies this
      ensures changed <==> old(state) == Waiting
      ensures state == if changed then Canceled else old(state)
    {
      changed := state == Waiting;
      if changed {
        state := Canceled;
      }
    }
  }

  /** The reply queue of a client: the prefix, a dot and the client id. */
  function ResponseQueueName(prefix: string, clientId: string): (name: string)
    ensures |name| == |prefix| + 1 + |clientId|
    ensures name[..|prefix|] == prefix && name[|prefix|] == '.' && name[|prefix| + 1..] == clientId
  {
    prefix + "." + clientId
  }

  /** Two clients with different ids under one prefix listen on different reply queues. */
  lemma ResponseQueueNameInjective(prefix: string, id1: string, id2: string)
    requires ResponseQueueName(prefix, id1) == ResponseQueueName(prefix, id2)
    ensures id1 == id2
  {
    var n := ResponseQueueName(prefix, id1);
    assert id1 == n[|prefix| + 1..];
    assert id2 == n[|prefix| + 1..];
  }

  /** The request a call publishes: the call's id and operation name and this client's reply queue. */
  function BuildRequest(correlationId: string, operation: Operation, num1: real, num2: real,
                        replyQueue: string): (r: Request)
    ensures r.correlationId == correlationId && r.replyTo == Some(replyQueue)
    ensures r.number1 == num1 && r.number2 == num2
    ensures r.operation.Some? && ToOperation(r.operation.value) == Success(operation)
  {
    Operations.ParsePrintRoundTrip(operation);
    Request(correlationId, Some(ToStringValue(operation)), num1, num2, Some(replyQueue))
  }

  /** What a resumed caller makes of the response it was handed. */
  function ResultOf(response: Response): (r: Result<real, ClientError>)
    ensures r.Success? <==> response.success
    ensures r.Success? ==> r.value == response.result
    ensures r.Failure? ==> r.error == CalculationFailed("Calculation failed: " + response.errorMessage.GetOr(""))
  {
    if !response.success then Failure(CalculationFailed("Calculation failed: " + response.errorMessage.GetOr("")))
    else Success(response.result)
  }

  const TimeoutPrefix: string := "Request timed out after "

  /** The timeout exception's message: the fixed prefix, the configured timeout as printed, then "ms". */
  function TimeoutMessage(timeoutMs: int): (m: string)
    ensures |m| > |TimeoutPrefix| + 2 && m[..|TimeoutPrefix|] == TimeoutPrefix && m[|m| - 2..] == "ms"
    ensures m[|TimeoutPrefix|..|m| - 2] == IntToString(timeoutMs)
  {
    TimeoutPrefix + IntToString(timeoutMs) + "ms"
  }

  /** The commands the constructor issues: declare the exchange and both queues, then consume replies. */
  function ClientSetupCommands(config: RabbitMQConfiguration, replyQueue: string): (cs: seq<Command>)
    ensures |cs| == 4 && cs[3] == BasicConsume(replyQueue, true)
    ensures forall i :: 0 <= i < |cs| && cs[i].QueueDeclare? && cs[i].queue == replyQueue && replyQueue != config.requestQueueName ==>
      !cs[i].durable && cs[i].exclusive && cs[i].autoDelete
    ensures ExchangeDeclare(config.exchangeName, config.exchangeType, config.durable, config.autoDelete) in cs
    ensures QueueDeclare(config.requestQueueName, config.durable, false, config.autoDelete) in cs
    ensures QueueDeclare(replyQueue, false, true, true) in cs
    ensures forall i :: 0 <= i < 3 ==> !cs[i].BasicConsume?
  {
    [ ExchangeDeclare(config.exchangeName, config.exchangeType, config.durable, config.autoDelete),
      QueueDeclare(config.requestQueueName, config.durable, false, config.autoDelete),
      QueueDeclare(replyQueue, false, true, true),
      BasicConsume(replyQueue, true) ]
  }

  /** Removing a key just added to a map gives the map back. */
  lemma AddThenRemove<K, V>(m: map<K, V>, k: K, v: V)
    requires k !in m
    ensures m[k := v] - {k} == m
  {
  }

  class CalculatorClient {
    const config: RabbitMQConfiguration
    const clientId: string
    const responseQueueName: string

    /** Correlation id to the slot of the call waiting for that id. */
    var pending: map<string, CompletionSlot>
    /** The commands issued on the channel. */
    var log: seq<Command>
    var disposed: bool

    /** Every call ever issued, with the slot its caller awaits. */
    ghost var calls: map<string, CompletionSlot>
    /** How each call that is no longer waiting ended. */
    ghost var outcomes: map<string, Result<real, ClientError>>

    /** The table and slot invariants, and a disposed client waits for nothing. */
    ghost predicate Valid()
      reads this, calls.Values
    {
      TableValid() && SlotsValid() && (disposed ==> pending == map[])
    }

    /** The table holds slots of issued calls, one slot per call, and each issued call is waiting or resolved, not both. */
    ghost predicate TableValid()
      reads this
    {
      && pending.Keys <= calls.Keys
      && outcomes.Keys <= calls.Keys
      && (forall id :: id in calls ==> (id in pending <==> id !in outcomes))
      && (forall id :: id in pending ==> pending[id] == calls[id])
      && (forall id, id' :: id in calls && id' in calls && id != id' ==> calls[id] != calls[id'])
    }

    /** A slot in the table is still waiting, and each resolved call's outcome agrees with its slot. */
    ghost predicate SlotsValid()
      reads this, calls.Values
    {
      && (forall id :: id in pending && id in calls ==> calls[id].state == Waiting)
      && (forall id :: id in outcomes && id in calls ==> OutcomeAgrees(outcomes[id], calls[id].state))
    }

    /** A recorded outcome matches the slot: a filled slot's response, a cancelled slot, or a slot left waiting by a timeout or a failed publish. */
    static ghost predicate OutcomeAgrees(outcome: Result<real, ClientError>, state: SlotState) {
      match state
      case Completed(r) => outcome == ResultOf(r)
      case Canceled => outcome == Failure(TaskCanceled)
      case Waiting => outcome.Failure? && (outcome.error.TimedOut? || outcome.error.PublishFailed? || outcome.error.TimeoutOutOfRange?)
    }

    /**
     * The constructor: the client id is the first eight characters of a
     * fresh GUID in "N" format (32 hexadecimal digits), and the reply
     * queue is named after it.
     */
    constructor (config: RabbitMQConfiguration, guid: string)
      requires |guid| == 32
      ensures Valid()
      ensures this.config == config && clientId == guid[..8] && |clientId| == 8
      ensures responseQueueName == ResponseQueueName(config.responseQueuePrefix, clientId)
      ensures pending == map[] && calls == map[] && outcomes == map[] && !disposed
      ensures log == ClientSetupCommands(config, responseQueueName)
    {
      this.config := config;
      clientId := guid[..8];
      responseQueueName := ResponseQueueName(config.responseQueuePrefix, guid[..8]);
      pending := map[];
      calls := map[];
      outcomes := map[];
      disposed := false;
      log := ClientSetupCommands(config, ResponseQueueName(config.responseQueuePrefix, guid[..8]));
    }

    /** `BasicPublish` of a request: allowed only once the request's id is registered. */
    method PublishRequest(request: Request, properties: Properties)
      requires Valid()
      requires properties.correlationId == Some(request.correlationId)
      requires request.correlationId in pending
      modifies this`log
      ensures Valid()
      ensures log == old(log) + [BasicPublish(config.exchangeName, config.requestQueueName, properties, RequestBody(request))]
    {
      log := log + [BasicPublish(config.exchangeName, config.requestQueueName, properties, RequestBody(request))];
    }

    /**
     * The first half of `SendCalculationRequestAsync`, up to the wait: register
     * a fresh slot under the fresh id, then publish. `publishOk` says whether
     * the broker accepted the publish; when it did not, the id is removed
     * again and the call fails at once. A closed channel accepts nothing.
     * After the publish, a configured timeout below -1 ms (-1 is the infinite
     * timeout) makes the `CancellationTokenSource` constructor throw, and the
     * `catch` removes the id just the same.
     */
    method Send(operation: Operation, num1: real, num2: real, correlationId: string, publishOk: bool)
      returns (failure: Option<ClientError>)
      requires Valid()
      requires correlationId !in calls
      requires disposed ==> !publishOk
      modifies this`pending, this`calls, this`outcomes, this`log
      ensures Valid()
      ensures correlationId in calls && fresh(calls[correlationId])
      ensures calls == old(calls)[correlationId := calls[correlationId]]
      ensures disposed == old(disposed)
      ensures publishOk && config.requestTimeoutMs >= -1 ==>
        && failure == None
        && pending == old(pending)[correlationId := calls[correlationId]]
        && outcomes == old(outcomes)
        && log == old(log) + [BasicPublish(config.exchangeName, config.requestQueueName,
                                           Properties(Some(correlationId), Some(responseQueueName), true),
                                           RequestBody(BuildRequest(correlationId, operation, num1, num2, responseQueueName)))]
      ensures publishOk && config.requestTimeoutMs < -1 ==>
        && failure == Some(TimeoutOutOfRange)
        && pending == old(pending)
        && outcomes == old(outcomes)[correlationId := Failure(TimeoutOutOfRange)]
        && log == old(log) + [BasicPublish(config.exchangeName, config.requestQueueName,
                                           Properties(Some(correlationId), Some(responseQueueName), true),
                                           RequestBody(BuildRequest(correlationId, operation, num1, num2, responseQueueName)))]
      ensures !publishOk ==>
        && failure == Some(PublishFailed)
        && pending == old(pending)
        && outcomes == old(outcomes)[correlationId := Failure(PublishFailed)]
        && log == old(log)
    {
      assert correlationId !in pending;
      ghost var before := pending;
      Register(correlationId);
      AddThenRemove(before, correlationId, calls[correlationId]);
      var request := BuildRequest(correlationId, operation, num1, num2, responseQueueName);
      var properties := Properties(Some(correlationId), Some(responseQueueName), true);
      if publishOk {
        PublishRequest(request, properties);
        failure := StartTimer(correlationId);
      } else {
        Withdraw(correlationId, PublishFailed);
        failure := Some(PublishFailed);
      }
    }

    /**
     * The `CancellationTokenSource` of a published call. Its constructor
     * throws for a timeout below -1 ms, and the `catch` removes the id.
     */
    method StartTimer(correlationId: string) returns (failure: Option<ClientError>)
      requires Valid()
      requires correlationId in pending
      modifies this`pending, this`outcomes
      ensures Valid()
      ensures config.requestTimeoutMs >= -1 ==> failure == None && pending == old(pending) && outcomes == old(outcomes)
      ensures config.requestTimeoutMs < -1 ==>
        && failure == Some(TimeoutOutOfRange)
        && pending == old(pending) - {correlationId}
        && outcomes == old(outcomes)[correlationId := Failure(TimeoutOutOfRange)]
    {
      if config.requestTimeoutMs < -1 {
        Withdraw(correlationId, TimeoutOutOfRange);
        failure := Some(TimeoutOutOfRange);
      } else {
        failure := None;
      }
    }

    /**
     * The indexer assignment of a fresh waiting slot under a fresh id. On a
     * disposed client the id stays in the table only until the failed
     * publish withdraws it, so `Valid` holds again at the end of `Send`.
     */
    method Register(correlationId: string)
      requires Valid()
      requires correlationId !in calls
      modifies this`pending, this`calls
      ensures TableValid() && SlotsValid()
      ensures !disposed ==> Valid()
      ensures correlationId in calls && fresh(calls[correlationId]) && calls[correlationId].state == Waiting
      ensures calls == old(calls)[correlationId := calls[correlationId]]
      ensures pending == old(pending)[correlationId := calls[correlationId]]
    {
      var slot := new CompletionSlot();
      assert forall id :: id in calls ==> calls[id] != slot;
      pending := pending[correlationId := slot];
      calls := calls[correlationId := slot];
    }

    /** The `TryRemove` of the `catch`: the call ends at once with `error`, its slot left waiting. */
    method Withdraw(correlationId: string, error: ClientError)
      requires TableValid() && SlotsValid()
      requires correlationId in pending
      requires disposed ==> pending.Keys == {correlationId}
      requires error.PublishFailed? || error.TimeoutOutOfRange?
      modifies this`pending, this`outcomes
      ensures Valid()
      ensures pending == old(pending) - {correlationId}
      ensures outcomes == old(outcomes)[correlationId := Failure(error)]
    {
      pending := pending - {correlationId};
      outcomes := outcomes[correlationId := Failure(error)];
    }

    /**
     * `OnResponseReceived`: `decoded` is the deserialised body, None when it
     * was null or not valid JSON. A response whose id is waiting removes that
     * entry and fills its slot; anything else changes nothing.
     */
    method OnResponseReceived(decoded: Option<Response>)
      requires Valid()
      modifies this, pending.Values
      ensures Valid()
      ensures calls == old(calls) && log == old(log) && disposed == old(disposed)
      ensures decoded.Some? && decoded.value.correlationId in old(pending) ==>
        var id := decoded.value.correlationId;
        && pending == old(pending) - {id}
        && calls[id].state == Completed(decoded.value)
        && outcomes == old(outcomes)[id := ResultOf(decoded.value)]
      ensures !(decoded.Some? && decoded.value.correlationId in old(pending)) ==>
        pending == old(pending) && outcomes == old(outcomes)
      ensures forall id :: id in calls && !(decoded.Some? && id == decoded.value.correlationId) ==>
        calls[id].state == old(calls[id].state)
    {
      if decoded.None? {
        return;
      }
      var response := decoded.value;
      var id := response.correlationId;
      if id in pending {
        var slot := pending[id];
        pending := pending - {id};
        slot.SetResult(response);
        outcomes := outcomes[id := ResultOf(response)];
      }
    }

    /**
     * The delay of the call `correlationId` wins its race with the slot: the
     * entry is removed and the call fails with a timeout. For a call that is
     * no longer waiting there is no race left to win, and nothing changes.
     * The delay of a call elapses only for a timeout of 0 ms or more: -1 ms
     * waits for ever, and a timeout below -1 ms already failed the call in `Send`.
     */
    method TimeoutElapsed(correlationId: string)
      requires Valid()
      requires config.requestTimeoutMs >= 0
      modifies this
      ensures Valid()
      ensures calls == old(calls) && log == old(log) && disposed == old(disposed)
      ensures correlationId in old(pending) ==>
        && pending == old(pending) - {correlationId}
        && outcomes == old(outcomes)[correlationId := Failure(TimedOut(TimeoutMessage(config.requestTimeoutMs)))]
      ensures correlationId !in old(pending) ==> pending == old(pending) && outcomes == old(outcomes)
    {
      if correlationId in pending {
        pending := pending - {correlationId};
        outcomes := outcomes[correlationId := Failure(TimedOut(TimeoutMessage(config.requestTimeoutMs)))];
      }
    }

    /**
     * The `foreach` of `Dispose`: `TrySetCanceled` on every slot in the
     * table, each of which ends its call with a cancellation.
     */
    method CancelPending()
      requires Valid()
      modifies this`outcomes, pending.Values
      ensures outcomes.Keys == old(outcomes).Keys + pending.Keys
      ensures forall id :: id in old(outcomes) ==> outcomes[id] == old(outcomes[id])
      ensures forall id :: id in pending ==> calls[id].state == Canceled && outcomes[id] == Failure(TaskCanceled)
      ensures forall id :: id in calls && id !in pending ==> calls[id].state == old(calls[id].state)
    {
      var rest := pending.Keys;
      ghost var done: set<string> := {};
      while rest != {}
        invariant pending == old(pending) && calls == old(calls)
        invariant done !! rest && done + rest == pending.Keys
        invariant outcomes.Keys == old(outcomes).Keys + done
        invariant forall id :: id in old(outcomes) ==> outcomes[id] == old(outcomes[id])
        invariant forall id :: id in done ==> pending[id].state == Canceled && outcomes[id] == Failure(TaskCanceled)
        invariant forall id :: id in rest ==> pending[id].state == Waiting
        invariant forall id :: id in calls && id !in pending ==> calls[id].state == old(calls[id].state)
        decreases rest
      {
        var id :| id in rest;
        CancelOne(id);
        rest := rest - {id};
        done := done + {id};
      }
    }

    /** One step of the `foreach`: cancel the slot under `id` and record the cancellation. */
    method CancelOne(id: string)
      requires id in pending && pending[id].state == Waiting
      modifies this`outcomes, pending[id]
      ensures pending[id].state == Canceled
      ensures outcomes == old(outcomes)[id := Failure(TaskCanceled)]
    {
      var _ := pending[id].TrySetCanceled();
      outcomes := outcomes[id := Failure(TaskCanceled)];
    }

    /**
     * `Dispose`: cancels every waiting slot, empties the table, closes the
     * channel and sets the disposed flag. A second call does nothing.
     */
    method Dispose()
      requires Valid()
      modifies this, pending.Values
      ensures Valid()
      ensures disposed && calls == old(calls)
      ensures old(disposed) ==> pending == old(pending) && outcomes == old(outcomes) && log == old(log)
      ensures !old(disposed) ==>
        && pending == map[]
        && log == old(log) + [Close]
        && outcomes.Keys == old(outcomes).Keys + old(pending).Keys
        && (forall id :: id in old(outcomes) ==> outcomes[id] == old(outcomes[id]))
        && (forall id :: id in old(pending) ==> outcomes[id] == Failure(TaskCanceled) && calls[id].state == Canceled)
      ensures forall id :: id in calls && id !in old(pending) ==> calls[id].state == old(calls[id].state)
    {
      if disposed {
        return;
      }
      CancelPending();
      pending := map[];
      log := log + [Close];
      disposed := true;
    }
  }
}
