/** The broker configuration record with its initialisers. */
module Settings {

  datatype RabbitMQConfiguration = RabbitMQConfiguration(
    hostName: string,
    port: int,
    userName: string,
    password: string,
    virtualHost: string,
    requestQueueName: string,
    responseQueuePrefix: string,
    exchangeName: string,
    exchangeType: string,
    durable: bool,
    exclusive: bool,
    autoDelete: bool,
    requestTimeoutMs: int,
    connectionTimeoutMs: int)

  /** `new RabbitMQConfiguration()`. */
  function DefaultConfiguration(): (c: RabbitMQConfiguration)
    ensures c.port == 5672 && c.requestTimeoutMs == 30000 && c.connectionTimeoutMs == 5000
    ensures c.durable && !c.exclusive && !c.autoDelete
  {
    RabbitMQConfiguration(
      hostName := "localhost",
      port := 5672,
      userName := "guest",
      password := "guest",
      virtualHost := "/",
      requestQueueName := "calculator.requests",
      responseQueuePrefix := "calculator.responses",
      exchangeName := "calculator.exchange",
      exchangeType := "direct",
      durable := true,
      exclusive := false,
      autoDelete := false,
      requestTimeoutMs := 30000,
      connectionTimeoutMs := 5000)
  }
}
