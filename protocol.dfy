/**
 * The two sides together: a request built by the client, served by the
 * consumer, and the response matched back to the waiting call.
 */
module Protocol {
  import opened Wrappers
  import opened Operations
  import opened Messages
  import opened Broker
  import opened Settings
  import opened Calculator
  import opened Client
  import opened Consumer

  /**
   * What the caller of a call makes of the engine's answer: the arithmetic
   * result, or the division-by-zero failure.
   */
  lemma CallResult(op: Operation, num1: real, num2: real, id: string, replyQueue: string)
    ensures ResultOf(Calculate(BuildRequest(id, op, num1, num2, replyQueue))) ==
      if op == Operations.Divide && num2 == 0.0
      then Failure(CalculationFailed("Calculation failed: " + DivideByZeroMessage))
      else Success(Arithmetic(op, num1, num2))
  {
  }

  /**
   * A call served without incident: the consumer publishes the engine's
   * response to the caller's reply queue under the call's id, then acks.
   */
  lemma ServedCallResolves(op: Operation, num1: real, num2: real, id: string, replyQueue: string,
                           tag: nat, errorPublishOk: bool)
    requires replyQueue != ""
    ensures var request := BuildRequest(id, op, num1, num2, replyQueue);
      var response := Calculate(request);
      && DeliveryActions(Delivery(tag, Some(id)), Some(request), NothingThrown, errorPublishOk) ==
           [BasicPublish("", replyQueue, Properties(Some(id), None, true), ResponseBody(response)),
            BasicAck(tag, false)]
      && response.correlationId == id
  {
    var request := BuildRequest(id, op, num1, num2, replyQueue);
    PublishPrecedesAck(Delivery(tag, Some(id)), request, errorPublishOk);
  }

  /** Adding 2 and 3 gives 5, and the id and the operation are echoed. */
  lemma AddExample()
    ensures Calculate(Request("1", Some("Add"), 2.0, 3.0, Some("q"))) ==
      Response("1", 5.0, true, None, Some("Add"))
  {
  }

  /** Dividing 6 by 0 fails with the fixed message. */
  lemma DivideByZeroExample()
    ensures Calculate(Request("2", Some("Divide"), 6.0, 0.0, Some("q"))) ==
      Response("2", 0.0, false, Some(DivideByZeroMessage), Some("Divide"))
  {
  }

  /** A name that is not an operation fails with a message that quotes it. */
  lemma UnknownOperationExample()
    ensures Calculate(Request("3", Some("InvalidOperation"), 6.0, 2.0, Some("q"))) ==
      Response("3", 0.0, false, Some(UnsupportedPrefix + "InvalidOperation"), Some("InvalidOperation"))
  {
    LowersTo("InvalidOperation", "invalidoperation");
  }

  /** What the engine answers to the three calls of the scenario below. */
  lemma ScenarioResults(queue: string)
    ensures ResultOf(Calculate(BuildRequest("a", Operations.Add, 2.0, 3.0, queue))) == Success(5.0)
    ensures ResultOf(Calculate(BuildRequest("b", Operations.Divide, 6.0, 0.0, queue))) ==
      Failure(CalculationFailed("Calculation failed: " + DivideByZeroMessage))
  {
    CallResult(Operations.Add, 2.0, 3.0, "a", queue);
    CallResult(Operations.Divide, 6.0, 0.0, "b", queue);
  }

  /** Three calls issued and published: all three wait, none has ended. */
  method IssueThreeCalls(config: RabbitMQConfiguration, guid: string) returns (client: CalculatorClient)
    requires |guid| == 32 && config.requestTimeoutMs >= -1
    ensures fresh(client) && fresh(client.calls.Values)
    ensures client.Valid() && client.config == config
    ensures client.pending.Keys == {"a", "b", "c"} && client.outcomes == map[]
  {
    client := new CalculatorClient(config, guid);
    var _ := client.Send(Operations.Add, 2.0, 3.0, "a", true);
    var _ := client.Send(Operations.Divide, 6.0, 0.0, "b", true);
    var _ := client.Send(Operations.Multiply, 4.0, 5.0, "c", true);
  }

  /** The responses to the first two calls arrive in reverse order. */
  method AnswerInReverse(client: CalculatorClient, responseA: Response, responseB: Response)
    requires client.Valid()
    requires client.pending.Keys == {"a", "b", "c"} && client.outcomes == map[]
    requires responseA.correlationId == "a" && responseB.correlationId == "b"
    modifies client, client.calls.Values
    ensures client.Valid() && client.calls == old(client.calls)
    ensures client.pending.Keys == {"c"}
    ensures client.outcomes == map["b" := ResultOf(responseB), "a" := ResultOf(responseA)]
  {
    assert client.pending.Values <= client.calls.Values;
    client.OnResponseReceived(Some(responseB));
    assert client.pending.Values <= client.calls.Values;
    client.OnResponseReceived(Some(responseA));
  }

  /**
   * A duplicate of an answered call's response changes nothing; the third
   * call times out, and its response arriving afterwards changes nothing.
   */
  method DuplicateThenTimeout(client: CalculatorClient, responseA: Response, responseC: Response)
    requires client.Valid()
    requires client.pending.Keys == {"c"} && client.config.requestTimeoutMs >= 0
    requires responseA.correlationId == "a" && responseC.correlationId == "c"
    modifies client, client.calls.Values
    ensures client.Valid() && client.pending == map[]
    ensures client.outcomes == old(client.outcomes)["c" := Failure(TimedOut(TimeoutMessage(client.config.requestTimeoutMs)))]
  {
    assert client.pending.Values <= client.calls.Values;
    client.OnResponseReceived(Some(responseA));
    client.TimeoutElapsed("c");
    assert client.pending.Values <= client.calls.Values;
    client.OnResponseReceived(Some(responseC));
  }

  /**
   * Three calls: the first two answered in reverse order with a duplicate
   * response, the third timing out and then answered late. Each call ends
   * with its own result, and neither the duplicate nor the late response
   * changes anything.
   */
  method InterleavedCalls(config: RabbitMQConfiguration, guid: string) returns (client: CalculatorClient)
    requires |guid| == 32 && config.requestTimeoutMs >= 0
    ensures client.Valid()
    ensures client.pending == map[]
    ensures client.outcomes.Keys == {"a", "b", "c"}
    ensures client.outcomes["a"] == Success(5.0)
    ensures client.outcomes["b"] == Failure(CalculationFailed("Calculation failed: " + DivideByZeroMessage))
    ensures client.outcomes["c"] == Failure(TimedOut(TimeoutMessage(config.requestTimeoutMs)))
  {
    client := IssueThreeCalls(config, guid);
    var queue := client.responseQueueName;
    var responseA := Calculate(BuildRequest("a", Operations.Add, 2.0, 3.0, queue));
    var responseB := Calculate(BuildRequest("b", Operations.Divide, 6.0, 0.0, queue));
    var responseC := Calculate(BuildRequest("c", Operations.Multiply, 4.0, 5.0, queue));
    ScenarioResults(queue);
    AnswerInReverse(client, responseA, responseB);
    DuplicateThenTimeout(client, responseA, responseC);
  }

  /**
   * A service that consumed and was disposed cannot consume again: its
   * closed channel is kept, so no new channel is set up, and the second
   * start fails without issuing anything or recording a tag.
   */
  method RestartAfterDispose(config: RabbitMQConfiguration) returns (service: ConsumerService, ok: bool)
    ensures !ok && service.consumerTag == None && service.disposed
    ensures service.log == SetupCommands(config) + [BasicConsume(config.requestQueueName, false), BasicCancel("t1"), Close]
  {
    service := new ConsumerService(config);
    var started := service.StartConsuming(true, "t1");
    service.Dispose();
    ok := service.StartConsuming(true, "t2");
  }
}
