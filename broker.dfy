/**
 * The broker as the core sees it: every channel call the core makes is an
 * entry in a command log, in the order the calls are made.
 */
module Broker {
  import opened Wrappers
  import opened Messages

  /** The message properties the core sets. */
  datatype Properties = Properties(correlationId: Option<string>, replyTo: Option<string>, persistent: bool)

  /** A message body, before serialisation. */
  datatype Body = RequestBody(request: Request) | ResponseBody(response: Response)

  datatype Command =
    | ExchangeDeclare(exchange: string, exchangeType: string, durable: bool, autoDelete: bool)
    | QueueDeclare(queue: string, durable: bool, exclusive: bool, autoDelete: bool)
    | QueueBind(queue: string, exchange: string, routingKey: string)
    | BasicQos(prefetchSize: nat, prefetchCount: nat, isGlobal: bool)
    | BasicConsume(queue: string, autoAck: bool)
    | BasicCancel(consumerTag: string)
    | BasicPublish(exchange: string, routingKey: string, properties: Properties, body: Body)
    | BasicAck(deliveryTag: nat, multiple: bool)
    | BasicNack(deliveryTag: nat, multiple: bool, requeue: bool)
    | Close

  /** An inbound delivery: its tag and the correlation-id property it carries (possibly null). */
  datatype Delivery = Delivery(deliveryTag: nat, correlationId: Option<string>)

  /** Whether a command settles a delivery (acknowledges or rejects it). */
  predicate Settles(c: Command) {
    c.BasicAck? || c.BasicNack?
  }
}
