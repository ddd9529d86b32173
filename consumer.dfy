/**
 * The server's consumer: channel setup with a prefetch of one, manual-ack
 * consumption, and the per-delivery handler that publishes a response and
 * then acknowledges, or rejects without requeueing.
 */
module Consumer {
  import opened Wrappers
  import opened Messages
  import opened Broker
  import opened Settings
  import opened Calculator

  /** Where, if anywhere, an unexpected exception interrupts the handler's try block. */
  datatype Thrown = NothingThrown | CalculationThrew | PublishThrew

  const InternalErrorMessage: string := "Internal server error occurred while processing the request"

  /** The setup commands: exchange, request queue, its binding, and a prefetch count of one. */
  function SetupCommands(config: RabbitMQConfiguration): (cs: seq<Command>)
    ensures |cs| == 4 && cs[3] == BasicQos(0, 1, false)
    ensures cs[0] == ExchangeDeclare(config.exchangeName, config.exchangeType, config.durable, config.autoDelete)
    ensures cs[1] == QueueDeclare(config.requestQueueName, config.durable, config.exclusive, config.autoDelete)
    ensures cs[2] == QueueBind(config.requestQueueName, config.exchangeName, config.requestQueueName)
    ensures forall i :: 0 <= i < |cs| ==> !cs[i].BasicConsume?
  {
    [ ExchangeDeclare(config.exchangeName, config.exchangeType, config.durable, config.autoDelete),
      QueueDeclare(config.requestQueueName, config.durable, config.exclusive, config.autoDelete),
      QueueBind(config.requestQueueName, config.exchangeName, config.requestQueueName),
      BasicQos(0, 1, false) ]
  }

  /**
   * What a successful `SendResponseAsync` issues: nothing when the reply-to
   * queue is null or empty, else one publish to the default exchange routed
   * by the queue name, carrying the delivery's correlation id when it has
   * one and the response's otherwise.
   */
  function ResponsePublication(replyTo: Option<string>, response: Response, correlationId: Option<string>)
    : (cs: seq<Command>)
    ensures cs == [] <==> IsNullOrEmpty(replyTo)
    ensures |cs| <= 1
    ensures forall i :: 0 <= i < |cs| ==>
      && cs[i].BasicPublish? && cs[i].exchange == "" && Some(cs[i].routingKey) == replyTo
      && cs[i].properties.correlationId == Some(if correlationId.Some? then correlationId.value else response.correlationId)
      && cs[i].properties.persistent
      && cs[i].body == ResponseBody(response)
  {
    if IsNullOrEmpty(replyTo) then []
    else [BasicPublish("", replyTo.value,
                       Properties(Some(correlationId.GetOr(response.correlationId)), None, true),
                       ResponseBody(response))]
  }

  /** The response the general handler sends: a failure with a fixed message. */
  function ErrorResponse(correlationId: string): (r: Response)
    ensures r.correlationId == correlationId && !r.success
    ensures r.errorMessage == Some(InternalErrorMessage) && r.result == 0.0
  {
    NewResponse().(correlationId := correlationId, success := false, errorMessage := Some(InternalErrorMessage))
  }

  /** The general handler: try to send the error response, then reject without requeue. */
  function ErrorActions(delivery: Delivery, request: Request, errorPublishOk: bool): (acts: seq<Command>)
    ensures 1 <= |acts| <= 2 && acts[|acts| - 1] == BasicNack(delivery.deliveryTag, false, false)
    ensures |acts| == 2 <==> errorPublishOk && !IsNullOrEmpty(request.replyTo)
    ensures |acts| == 2 ==> acts[0].BasicPublish? && acts[0].body == ResponseBody(ErrorResponse(request.correlationId))
  {
    (if errorPublishOk then ResponsePublication(request.replyTo, ErrorResponse(request.correlationId), delivery.correlationId)
     else [])
    + [BasicNack(delivery.deliveryTag, false, false)]
  }

  /**
   * The commands `OnMessageReceived` issues for one delivery. `decoded` is
   * the deserialised body (None for null or malformed JSON); `thrown` says
   * where an unexpected exception interrupts; `errorPublishOk` whether the
   * best-effort error response could be published.
   */
  function DeliveryActions(delivery: Delivery, decoded: Option<Request>, thrown: Thrown, errorPublishOk: bool)
    : (acts: seq<Command>)
    ensures 1 <= |acts| <= 2
    ensures Settles(acts[|acts| - 1]) && acts[|acts| - 1].deliveryTag == delivery.deliveryTag
    ensures forall i :: 0 <= i < |acts| - 1 ==> acts[i].BasicPublish?
    ensures forall i :: 0 <= i < |acts| && acts[i].BasicNack? ==> !acts[i].multiple && !acts[i].requeue
    ensures forall i :: 0 <= i < |acts| && acts[i].BasicAck? ==> !acts[i].multiple
    ensures decoded.None? ==> acts == [BasicNack(delivery.deliveryTag, false, false)]
    ensures forall i :: 0 <= i < |acts| && acts[i].BasicPublish? ==>
      decoded.Some? && !IsNullOrEmpty(decoded.value.replyTo)
      && acts[i].exchange == "" && acts[i].routingKey == decoded.value.replyTo.value
  {
    match decoded
    case None => [BasicNack(delivery.deliveryTag, false, false)]
    case Some(request) =>
      if thrown == CalculationThrew then ErrorActions(delivery, request, errorPublishOk)
      else
        var publication := ResponsePublication(request.replyTo, Calculate(request), delivery.correlationId);
        if publication != [] && thrown == PublishThrew then ErrorActions(delivery, request, errorPublishOk)
        else publication + [BasicAck(delivery.deliveryTag, false)]
  }

  /** On the normal path the engine's response is published to the reply-to queue before the ack. */
  lemma PublishPrecedesAck(delivery: Delivery, request: Request, errorPublishOk: bool)
    requires !IsNullOrEmpty(request.replyTo)
    ensures DeliveryActions(delivery, Some(request), NothingThrown, errorPublishOk) ==
      [ BasicPublish("", request.replyTo.value,
                     Properties(Some(delivery.correlationId.GetOr(request.correlationId)), None, true),
                     ResponseBody(Calculate(request))),
        BasicAck(delivery.deliveryTag, false) ]
  {
  }

  /** A request with a null or empty reply-to is acknowledged and nothing is published, whatever the publish would have done. */
  lemma EmptyReplyToPublishesNothing(delivery: Delivery, request: Request, thrown: Thrown, errorPublishOk: bool)
    requires IsNullOrEmpty(request.replyTo) && thrown != CalculationThrew
    ensures DeliveryActions(delivery, Some(request), thrown, errorPublishOk) == [BasicAck(delivery.deliveryTag, false)]
  {
  }

  /**
   * A delivery is acknowledged exactly when it decodes and nothing throws
   * before the ack; otherwise it is rejected without requeue.
   */
  lemma AckExactlyWhenHandled(delivery: Delivery, decoded: Option<Request>, thrown: Thrown, errorPublishOk: bool)
    ensures var acts := DeliveryActions(delivery, decoded, thrown, errorPublishOk);
      acts[|acts| - 1].BasicAck? <==>
        decoded.Some? && (thrown == NothingThrown || (thrown == PublishThrew && IsNullOrEmpty(decoded.value.replyTo)))
  {
  }

  /** When an exception interrupts, the failure response goes to the request's reply-to queue and the delivery is rejected. */
  lemma ErrorPathRespondsThenRejects(delivery: Delivery, request: Request, thrown: Thrown)
    requires thrown == CalculationThrew || (thrown == PublishThrew && !IsNullOrEmpty(request.replyTo))
    ensures DeliveryActions(delivery, Some(request), thrown, true) ==
      ResponsePublication(request.replyTo, ErrorResponse(request.correlationId), delivery.correlationId)
      + [BasicNack(delivery.deliveryTag, false, false)]
    ensures DeliveryActions(delivery, Some(request), thrown, false) == [BasicNack(delivery.deliveryTag, false, false)]
  {
  }

  /** Every consume in a command log is manual-ack and comes after the prefetch setting at index 3. */
  ghost predicate ConsumesAfterQos(log: seq<Command>) {
    forall i :: 0 <= i < |log| && log[i].BasicConsume? ==> 3 < i && !log[i].autoAck
  }

  /** Appending commands that start no consumer keeps the setup prefix and the consume rule. */
  lemma AppendKeepsSetup(config: RabbitMQConfiguration, log: seq<Command>, extra: seq<Command>)
    requires |log| >= 4 && log[..4] == SetupCommands(config) && ConsumesAfterQos(log)
    requires forall i :: 0 <= i < |extra| ==> !extra[i].BasicConsume?
    ensures |log + extra| >= 4 && (log + extra)[..4] == SetupCommands(config)
    ensures ConsumesAfterQos(log + extra)
  {
  }

  class ConsumerService {
    const config: RabbitMQConfiguration
    var hasChannel: bool
    /** The channel was closed by `Dispose`; the field still refers to it. */
    var channelClosed: bool
    var consumerTag: Option<string>
    var disposed: bool
    /** The commands issued on the service's channels. */
    var log: seq<Command>

    ghost predicate Valid()
      reads this
    {
      && (hasChannel <==> log != [])
      && (hasChannel ==> |log| >= 4 && log[..4] == SetupCommands(config))
      && (consumerTag.Some? ==> hasChannel && !channelClosed)
      && (channelClosed ==> hasChannel && disposed)
      && ConsumesAfterQos(log)
    }

    constructor (config: RabbitMQConfiguration)
      ensures Valid()
      ensures this.config == config && !hasChannel && !channelClosed && consumerTag == None && !disposed && log == []
    {
      this.config := config;
      hasChannel := false;
      channelClosed := false;
      consumerTag := None;
      disposed := false;
      log := [];
    }

    /**
     * `SetupQueuesAndExchanges`: open a channel and declare the topology.
     * Creating a channel fails (and the method throws) when the connection
     * is down. A new channel replaces the old one, closed or not.
     */
    method SetupQueuesAndExchanges(connected: bool) returns (ok: bool)
      requires Valid()
      modifies this
      ensures Valid()
      ensures ok == connected
      ensures consumerTag == old(consumerTag) && disposed == old(disposed)
      ensures ok ==> hasChannel && !channelClosed && log == old(log) + SetupCommands(config)
      ensures !ok ==> hasChannel == old(hasChannel) && channelClosed == old(channelClosed) && log == old(log)
    {
      if !connected {
        return false;
      }
      hasChannel := true;
      channelClosed := false;
      log := log + SetupCommands(config);
      ok := true;
    }

    /**
     * `StartConsumingAsync` up to its wait: set up only when no channel
     * exists yet, then consume the request queue with manual
     * acknowledgement under the tag the broker returns. The channel a
     * disposed service closed is still there, so no setup happens and
     * `BasicConsume` on it throws: the call fails with nothing changed.
     */
    method StartConsuming(connected: bool, tag: string) returns (ok: bool)
      requires Valid()
      modifies this
      ensures Valid()
      ensures ok == (if old(hasChannel) then !old(channelClosed) else connected)
      ensures disposed == old(disposed)
      ensures ok ==> consumerTag == Some(tag)
      ensures ok ==> log == old(log) + (if old(hasChannel) then [] else SetupCommands(config))
                            + [BasicConsume(config.requestQueueName, false)]
      ensures !ok ==>
        consumerTag == old(consumerTag) && log == old(log) && hasChannel == old(hasChannel) && channelClosed == old(channelClosed)
    {
      if !hasChannel {
        ok := SetupQueuesAndExchanges(connected);
        if !ok {
          return;
        }
      } else if channelClosed {
        return false;
      }
      log := log + [BasicConsume(config.requestQueueName, false)];
      consumerTag := Some(tag);
      ok := true;
    }

    /** `StopConsumingAsync`: cancel the consumer when there is one and forget its tag. */
    method StopConsuming()
      requires Valid()
      modifies this
      ensures Valid()
      ensures consumerTag == None
      ensures hasChannel == old(hasChannel) && channelClosed == old(channelClosed) && disposed == old(disposed)
      ensures log == old(log) + (if old(consumerTag).Some? then [BasicCancel(old(consumerTag).value)] else [])
    {
      if consumerTag.Some? && hasChannel {
        log := log + [BasicCancel(consumerTag.value)];
        consumerTag := None;
      }
    }

    /**
     * `SendResponseAsync`: nothing to do without a reply-to queue; otherwise
     * publish, and report (as the exception would) a publish that failed.
     */
    method SendResponse(replyTo: Option<string>, response: Response, correlationId: Option<string>, publishOk: bool)
      returns (ok: bool)
      requires hasChannel
      modifies this`log
      ensures ok == (IsNullOrEmpty(replyTo) || publishOk)
      ensures log == old(log) + (if ok then ResponsePublication(replyTo, response, correlationId) else [])
    {
      if IsNullOrEmpty(replyTo) {
        return true;
      }
      if !publishOk {
        return false;
      }
      log := log + [BasicPublish("", replyTo.value,
                                 Properties(Some(correlationId.GetOr(response.correlationId)), None, true),
                                 ResponseBody(response))];
      ok := true;
    }

    /**
     * `OnMessageReceived`: the handler runs only on a consumer attached to
     * the service's channel, so a channel exists, and a closed channel
     * delivers nothing.
     */
    method OnMessageReceived(delivery: Delivery, decoded: Option<Request>, thrown: Thrown, errorPublishOk: bool)
      requires Valid() && hasChannel && !channelClosed
      modifies this`log
      ensures Valid()
      ensures log == old(log) + DeliveryActions(delivery, decoded, thrown, errorPublishOk)
    {
      ghost var log0 := log;
      if decoded.None? {
        log := log + [BasicNack(delivery.deliveryTag, false, false)];
      } else {
        HandleRequest(delivery, decoded.value, thrown, errorPublishOk);
      }
      AppendKeepsSetup(config, log0, DeliveryActions(delivery, decoded, thrown, errorPublishOk));
    }

    /** The body of `OnMessageReceived`'s try block and its catch, for a request that deserialised. */
    method HandleRequest(delivery: Delivery, request: Request, thrown: Thrown, errorPublishOk: bool)
      requires hasChannel
      modifies this`log
      ensures log == old(log) + DeliveryActions(delivery, Some(request), thrown, errorPublishOk)
    {
      var correlationId := request.correlationId;
      var failed := thrown == CalculationThrew;
      if !failed {
        var response := CalculateAsync(request);
        var sent := SendResponse(request.replyTo, response, delivery.correlationId, thrown != PublishThrew);
        if sent {
          log := log + [BasicAck(delivery.deliveryTag, false)];
        } else {
          failed := true;
        }
      }
      if failed {
        var errorResponse := ErrorResponse(correlationId);
        if !IsNullOrEmpty(request.replyTo) {
          var _ := SendResponse(request.replyTo, errorResponse, delivery.correlationId, errorPublishOk);
        }
        log := log + [BasicNack(delivery.deliveryTag, false, false)];
      }
    }

    /** `Dispose`: stop consuming, close the channel, and set the flag; a second call does nothing. */
    method Dispose()
      requires Valid()
      modifies this
      ensures Valid()
      ensures disposed && consumerTag == (if old(disposed) then old(consumerTag) else None)
      ensures hasChannel == old(hasChannel)
      ensures channelClosed == (if old(disposed) then old(channelClosed) else hasChannel)
      ensures old(disposed) ==> log == old(log)
      ensures !old(disposed) ==>
        log == old(log) + (if old(consumerTag).Some? then [BasicCancel(old(consumerTag).value)] else [])
               + (if hasChannel then [Close] else [])
    {
      if disposed {
        return;
      }
      StopConsuming();
      if hasChannel {
        log := log + [Close];
        channelClosed := true;
      }
      disposed := true;
    }
  }
}
