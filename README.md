# Calculator over RabbitMQ: a Dafny model of its core

The system is a request/response calculator. A client publishes a
calculation request, tagged with a fresh correlation id and the name of its
own reply queue, to a request queue. A server consumes the queue one message
at a time, computes the result, publishes a response to the reply queue, and
then acknowledges the delivery. The client matches each response to its
waiting call by correlation id. This project models the five pieces of
sequential logic around the transport:

- **Operations** (`operations.dfy`) is the operation tag codec. It covers the
  case-insensitive parser `ToOperation`, the printer `ToStringValue` and the
  symbol map `ToSymbol`.
- **Calculator** (`calculator.dfy`) is the calculation engine. The pure
  response function `Calculate` is the specification. The imperative
  `CalculateAsync` builds the response field by field, as the source does,
  and is proved equal to it.
- **Client** (`client.dfy`) is the client dispatcher. The class
  `CalculatorClient` holds the correlation table `pending`, a map from id to
  a `CompletionSlot` object. It also holds two ghost maps: every call ever
  issued (`calls`) and how each finished call ended (`outcomes`). Sending,
  response delivery, timeout and disposal are separate events that may occur
  in any order. The invariant `Valid` holds across all of them. It says:
  - an id is in the table exactly when its call has not ended;
  - a slot in the table is still waiting;
  - each recorded outcome matches its slot;
  - a disposed client has no call waiting.
- **Consumer** (`consumer.dfy`) is the server consumer. The class
  `ConsumerService` records every channel call in a command log. The
  function `DeliveryActions` is the specification of one delivery: it gives
  the commands the handler issues, for each way the handler can end.
- **ClientSetup** (`client_setup.dfy`) covers client configuration. Host
  and port come from the environment, else from the caller's argument, else
  from a default; user name, password and virtual host come from the
  environment, else from a default.

Support modules:

- `Wrappers`: `Option` and `Result`.
- `Numerals`: `int.TryParse` and decimal printing.
- `Messages`: the request and response records.
- `Broker`: channel commands and deliveries.
- `Settings`: the configuration record and its defaults.
- `Protocol`: the two sides together, plus worked scenarios.

Modelling choices:

- Operands and results are `real`.
- C# strings that may be null, where null changes behaviour, are `Option<string>`: the request's operation and reply-to, and the response's error message and operation.
- JSON decoding is an `Option` argument: `None` stands for a null or malformed body.
- The fresh GUID of a call is a precondition: the id was never issued before.
- Where a broker call or the calculation could throw, a parameter says whether it does:
  - `publishOk` for the client's publish;
  - `thrown` for the server handler, saying whether the calculation or the publish throws;
  - `errorPublishOk` for the server's best-effort error response.

## Model

| member | source | states |
|---|---|---|
| Operations.ToLowerInvariant | Calculator.Server/Models/CalculationOperation.cs:45 | lowering keeps the length and lowers each character in place; each character goes through `LowerChar`, the model of `char.ToLowerInvariant`, which maps 'A'-'Z' to 'a'-'z' and leaves lower-case letters alone |
| Operations.LowerIdempotent | Calculator.Server/Models/CalculationOperation.cs:45 | lowering an already lowered string changes nothing |
| Operations.ToOperation | Calculator.Server/Models/CalculationOperation.cs:43-53 | every rejection carries "Unsupported operation: " followed by the input exactly as given, not lowered |
| Operations.ParseAcceptsExactlyNames | Calculator.Server/Models/CalculationOperation.cs:43-53 | the parser returns `op` exactly when the input equals `op`'s name up to letter case (both directions) |
| Operations.ParseIgnoresCase | Calculator.Server/Models/CalculationOperation.cs:45 | strings equal up to case both parse, to the same operation, or both fail |
| Operations.ParseLowered | Calculator.Server/Models/CalculationOperation.cs:45 | the lower-case form of a string parses as the string itself does |
| Operations.ToStringValue | Calculator.Server/Models/CalculationOperation.cs:60-63 | the printed name is a non-empty identifier starting with a capital letter |
| Operations.ParsePrintRoundTrip | Calculator.Server/Models/CalculationOperation.cs:43-63 | parsing the printed name of any operation gives that operation back |
| Operations.ToSymbol | Calculator.Server/Models/CalculationOperation.cs:70-80 | every operation has a one-character symbol, and the `"?"` fallback is never produced |
| Operations.SymbolsAndNamesInjective | Calculator.Server/Models/CalculationOperation.cs:70-80 | distinct operations have distinct symbols and distinct names |
| Messages.NewResponse | Calculator.Client/Models/CalculationResponse.cs:27 | a fresh response starts successful, with no error message and a zero result |
| Settings.DefaultConfiguration | Calculator.Server/Models/RabbitMQConfiguration.cs:11-76 | the defaults: port 5672, 30000 ms request timeout, 5000 ms connection timeout, durable, neither exclusive nor auto-delete |
| Calculator.Add | Calculator.Server/Services/CalculatorService.cs:81-84 | subtracting either operand from the sum gives the other |
| Calculator.Subtract | Calculator.Server/Services/CalculatorService.cs:86-89 | adding the subtrahend back gives the minuend |
| Calculator.Multiply | Calculator.Server/Services/CalculatorService.cs:91-94 | dividing by a non-zero operand gives the other back, and a zero operand gives zero |
| Calculator.Divide | Calculator.Server/Services/CalculatorService.cs:96-103 | fails with the divide-by-zero fault exactly when the divisor is zero; otherwise the quotient times the divisor is the dividend |
| Calculator.Apply | Calculator.Server/Services/CalculatorService.cs:36-43 | the switch fails exactly for a division by zero, and then with the divide-by-zero fault |
| Calculator.Evaluate | Calculator.Server/Services/CalculatorService.cs:34-43 | a null operation gives the unexpected fault, an unparsable one the parser's fault, Divide by zero its fault, and all else succeeds (each an if-and-only-if) |
| Calculator.Calculate | Calculator.Server/Services/CalculatorService.cs:20-79 | the response echoes the id and the operation on every path; success holds exactly when no error message is set; a failed response keeps result 0 |
| Calculator.CalculateAsync | Calculator.Server/Services/CalculatorService.cs:20-79 | the field-by-field construction through the three handlers yields exactly `Calculate(request)` |
| Calculator.KnownOperationSucceeds | Calculator.Server/Services/CalculatorService.cs:34-45 | a known name in any letter case, with a non-zero divisor for Divide, succeeds with the arithmetic result |
| Calculator.DivideByZeroFails | Calculator.Server/Services/CalculatorService.cs:50-55 | Divide by zero fails with "Cannot divide by zero" and keeps the correlation id |
| Calculator.UnknownOperationFails | Calculator.Server/Services/CalculatorService.cs:57-62 | a text naming no operation fails with the parser's message quoting that text |
| Calculator.NullOperationFails | Calculator.Server/Services/CalculatorService.cs:64-70 | a null operation reaches the general handler and fails with its fixed message |
| Calculator.SuccessCharacterised | Calculator.Server/Services/CalculatorService.cs:29-70 | the engine succeeds exactly when the operation parses and is not a division by zero |
| Numerals.NatToString | Calculator.Client/Services/CalculatorClientService.cs:173 | a printed natural is a non-empty string of digits |
| Numerals.IntToString | Calculator.Client/Services/CalculatorClientService.cs:173 | a printed integer is non-empty, ends in a digit, and begins with '-' exactly when negative |
| Numerals.DigitsRoundTrip | Calculator.Client/Extensions/ServiceCollectionExtensions.cs:63 | the value of a printed natural's digits is the natural |
| Numerals.TrimStart | Calculator.Client/Extensions/ServiceCollectionExtensions.cs:63 | the result is a suffix, everything cut off is white space, and it does not start with white space |
| Numerals.TrimEnd | Calculator.Client/Extensions/ServiceCollectionExtensions.cs:63 | the result is a prefix, everything cut off is white space, and it does not end with white space |
| Numerals.TryParseInt32 | Calculator.Client/Extensions/ServiceCollectionExtensions.cs:63 | a null string never parses, and any parsed value lies in the 32-bit range |
| Numerals.ParseTrimmed | Calculator.Client/Extensions/ServiceCollectionExtensions.cs:63 | the text between the white space parses only to a 32-bit value |
| Numerals.ParseSignDigits | Calculator.Client/Extensions/ServiceCollectionExtensions.cs:63 | an optional sign followed by digits parses to its signed value when that is a 32-bit integer, and to nothing otherwise |
| Numerals.ParsedTrimmed | Calculator.Client/Extensions/ServiceCollectionExtensions.cs:63 | whatever parses between the white space is an optional sign followed by digits denoting the value |
| Numerals.TrimSplit | Calculator.Client/Extensions/ServiceCollectionExtensions.cs:63 | any text is the white space trimming removes in front, the trimmed text, and the white space it removes behind |
| Numerals.ParseNumeral | Calculator.Client/Extensions/ServiceCollectionExtensions.cs:63 | white space, an optional '+' or '-', at least one digit and white space parse to the signed value when it is a 32-bit integer, and to nothing when it is out of range |
| Numerals.ParsedIsNumeral | Calculator.Client/Extensions/ServiceCollectionExtensions.cs:63 | conversely, text that parses to `v` is exactly such a numeral denoting `v`; with `ParseNumeral` this characterises the accepted strings |
| Numerals.ParsePrintRoundTrip | Calculator.Client/Extensions/ServiceCollectionExtensions.cs:63 | every 32-bit integer parses back from its printed form |
| Numerals.NoDigitsNoNumber | Calculator.Client/Extensions/ServiceCollectionExtensions.cs:63 | text holding no digit never parses |
| ClientSetup.GetVariable | Calculator.Client/Extensions/ServiceCollectionExtensions.cs:62-66 | a variable reads as its value when set and as null otherwise |
| ClientSetup.ResolveHost | Calculator.Client/Extensions/ServiceCollectionExtensions.cs:62 | the host is RABBITMQ_HOST when set, else the argument, else "localhost" |
| ClientSetup.ResolvePort | Calculator.Client/Extensions/ServiceCollectionExtensions.cs:63 | the port is RABBITMQ_PORT when it parses as an int, else the argument, else 5672 |
| ClientSetup.ResolveOrDefault | Calculator.Client/Extensions/ServiceCollectionExtensions.cs:64-66 | a setting without argument is the variable's value when set, else the default |
| ClientSetup.ConfigureFromEnvironment | Calculator.Client/Extensions/ServiceCollectionExtensions.cs:59-67 | the five assignments set host, port, user ("guest"), password ("guest") and virtual host ("/") by precedence, and every other field is unchanged |
| ClientSetup.EnvironmentPortWins | Calculator.Client/Extensions/ServiceCollectionExtensions.cs:63 | a RABBITMQ_PORT holding a 32-bit numeral overrides the argument |
| ClientSetup.UnparsablePortFallsBack | Calculator.Client/Extensions/ServiceCollectionExtensions.cs:63 | an unset RABBITMQ_PORT, or one without digits, falls back to the argument or 5672 without error |
| ClientSetup.EmptyEnvironmentKeepsDefaults | Calculator.Client/Extensions/ServiceCollectionExtensions.cs:59-67 | with no variables and no arguments the record's defaults are left as they are |
| Client.CompletionSlot.constructor | Calculator.Client/Services/CalculatorClientService.cs:128 | a new slot is waiting |
| Client.CompletionSlot.SetResult | Calculator.Client/Services/CalculatorClientService.cs:216 | a waiting slot becomes completed with the response |
| Client.CompletionSlot.TrySetCanceled | Calculator.Client/Services/CalculatorClientService.cs:243 | cancels a waiting slot and reports it; a completed or cancelled slot is left as it is |
| Client.ResponseQueueName | Calculator.Client/Services/CalculatorClientService.cs:38 | the reply queue name is prefix, dot and client id |
| Client.ResponseQueueNameInjective | Calculator.Client/Services/CalculatorClientService.cs:37-38 | clients with different ids under one prefix get different reply queues |
| Client.BuildRequest | Calculator.Client/Services/CalculatorClientService.cs:135-142 | the request carries the call's id, both operands and the reply queue, and its operation text parses back to the call's operation |
| Client.ResultOf | Calculator.Client/Services/CalculatorClientService.cs:176-186 | a failed response becomes "Calculation failed: " plus its error message; a successful one yields its result |
| Client.TimeoutMessage | Calculator.Client/Services/CalculatorClientService.cs:173 | the message is "Request timed out after ", the configured timeout as printed, then "ms" |
| Client.ClientSetupCommands | Calculator.Client/Services/CalculatorClientService.cs:45-103 | four commands that declare the exchange, the request queue (never exclusive) and the reply queue (non-durable, exclusive, auto-delete), and end by consuming the reply queue with auto-ack; nothing is consumed before that |
| Client.CalculatorClient.constructor | Calculator.Client/Services/CalculatorClientService.cs:29-43 | the client id is 8 characters of the GUID; the table is empty; the channel declares the exchange, the request queue and the exclusive auto-delete reply queue, then consumes replies with auto-ack |
| Client.CalculatorClient.PublishRequest | Calculator.Client/Services/CalculatorClientService.cs:151-160 | a request is published to the exchange under the request queue's routing key, and only while its id is in the table |
| Client.CalculatorClient.Register | Calculator.Client/Services/CalculatorClientService.cs:133 | the fresh id is added to the table with a fresh waiting slot, keeping the table and slot invariants; on a live client it keeps `Valid` |
| Client.CalculatorClient.Withdraw | Calculator.Client/Services/CalculatorClientService.cs:188-192 | after a failed publish or a rejected timeout the id leaves the table and the call ends with that error |
| Client.CalculatorClient.StartTimer | Calculator.Client/Services/CalculatorClientService.cs:166 | a timeout of -1 ms or more starts the wait and changes nothing; below -1 ms the call ends at once with the out-of-range error and its id leaves the table |
| Client.CalculatorClient.Send | Calculator.Client/Services/CalculatorClientService.cs:125-194 | the id is registered before the publish; the published request and its properties carry the id and the reply queue; a failed publish removes the id again and the call fails at once; a configured timeout below -1 ms fails the call right after the publish and removes its id |
| Client.CalculatorClient.OnResponseReceived | Calculator.Client/Services/CalculatorClientService.cs:196-232 | a response whose id is waiting removes exactly that entry, fills that slot and ends the call with `ResultOf`; an unknown, late, duplicate or undecodable response changes nothing; no other slot changes |
| Client.CalculatorClient.TimeoutElapsed | Calculator.Client/Services/CalculatorClientService.cs:165-174 | for a timeout of 0 ms or more, a waiting call leaves the table and ends with the timeout message naming the configured milliseconds; otherwise nothing changes |
| Client.CalculatorClient.CancelOne | Calculator.Client/Services/CalculatorClientService.cs:243 | a waiting slot is cancelled and its call recorded as cancelled |
| Client.CalculatorClient.CancelPending | Calculator.Client/Services/CalculatorClientService.cs:241-244 | every slot in the table is cancelled and its call ends with a cancellation; earlier outcomes and all other slots are untouched |
| Client.CalculatorClient.Dispose | Calculator.Client/Services/CalculatorClientService.cs:234-260 | the first call cancels every waiting call, empties the table and closes the channel; a second call changes nothing |
| Consumer.SetupCommands | Calculator.Server/Services/RabbitMQConsumerService.cs:42-66 | the setup declares the exchange, then the request queue with the configured flags, then binds the queue to the exchange under its own name, and ends with a prefetch count of one; it consumes nothing |
| Consumer.ResponsePublication | Calculator.Server/Services/RabbitMQConsumerService.cs:197-230 | nothing is published exactly when reply-to is null or empty; otherwise one persistent publish to exchange "" routed by reply-to, carrying the delivery's correlation id, else the response's; `IsNullOrEmpty` is `string.IsNullOrEmpty` on an optional string |
| Consumer.ErrorResponse | Calculator.Server/Services/RabbitMQConsumerService.cs:175-180 | the error response is a failure with the fixed internal-error message and the request's id |
| Consumer.ErrorActions | Calculator.Server/Services/RabbitMQConsumerService.cs:168-194 | the general handler ends with a non-requeue nack under the delivery's tag, preceded by the error response's publish exactly when it can be sent to a non-empty reply-to |
| Consumer.DeliveryActions | Calculator.Server/Services/RabbitMQConsumerService.cs:130-195 | each delivery gets exactly one settlement, last, under its own tag; every nack is non-requeue and non-multiple; at most one publish precedes it, to "" routed by a non-empty reply-to; an undecodable body gets only a nack |
| Consumer.PublishPrecedesAck | Calculator.Server/Services/RabbitMQConsumerService.cs:153-159 | on the normal path the engine's response goes to reply-to and then the delivery is acked |
| Consumer.EmptyReplyToPublishesNothing | Calculator.Server/Services/RabbitMQConsumerService.cs:201-205 | with an empty reply-to the delivery is acked and nothing is published |
| Consumer.AckExactlyWhenHandled | Calculator.Server/Services/RabbitMQConsumerService.cs:130-195 | a delivery is acked exactly when it decodes and nothing throws before the ack; otherwise it is nacked |
| Consumer.ErrorPathRespondsThenRejects | Calculator.Server/Services/RabbitMQConsumerService.cs:168-194 | after an exception the error response goes to reply-to, when it can be sent, and the delivery is nacked without requeue |
| Consumer.ConsumerService.constructor | Calculator.Server/Services/RabbitMQConsumerService.cs:26-36 | a new service has no channel, no consumer tag and an empty log |
| Consumer.ConsumerService.SetupQueuesAndExchanges | Calculator.Server/Services/RabbitMQConsumerService.cs:38-77 | with a connection, a channel is opened and the setup commands are issued; without one nothing changes |
| Consumer.ConsumerService.StartConsuming | Calculator.Server/Services/RabbitMQConsumerService.cs:79-110 | setup runs only when there is no channel yet; then the request queue is consumed with manual ack and the tag is kept; on the channel a disposed service closed, consuming fails and nothing changes; every consume in the log follows the prefetch setting |
| Consumer.ConsumerService.StopConsuming | Calculator.Server/Services/RabbitMQConsumerService.cs:112-128 | the consumer is cancelled only when a tag exists; the tag is then cleared, so a second call issues nothing |
| Consumer.ConsumerService.SendResponse | Calculator.Server/Services/RabbitMQConsumerService.cs:197-230 | reports success exactly when reply-to is empty or the publish succeeds, and issues `ResponsePublication` only on success |
| Consumer.ConsumerService.OnMessageReceived | Calculator.Server/Services/RabbitMQConsumerService.cs:130-195 | the handler appends exactly `DeliveryActions` to the log and keeps the service invariant |
| Consumer.ConsumerService.HandleRequest | Calculator.Server/Services/RabbitMQConsumerService.cs:149-194 | for a request that deserialised, the rest of the try block and the general catch append exactly `DeliveryActions` for that request |
| Consumer.ConsumerService.Dispose | Calculator.Server/Services/RabbitMQConsumerService.cs:232-251 | the first call cancels the consumer and closes the channel, which stays referenced; a second call changes nothing |
| Protocol.CallResult | Calculator.Client/Services/CalculatorClientService.cs:176-186 | a call's request served by the engine resumes its caller with the arithmetic result, or with "Calculation failed: Cannot divide by zero" |
| Protocol.ServedCallResolves | Calculator.Server/Services/RabbitMQConsumerService.cs:153-159 | a request built by the client is answered on its reply queue under its own id, then acked |
| Protocol.AddExample | Calculator.Tests/CalculatorServiceTests.cs:20-40 | "Add" with 2 and 3 gives a successful 5, echoing the id and the operation |
| Protocol.DivideByZeroExample | Calculator.Tests/CalculatorServiceTests.cs:122-141 | "Divide" with 6 and 0 fails with "Cannot divide by zero" |
| Protocol.UnknownOperationExample | Calculator.Tests/CalculatorServiceTests.cs:143-161 | "InvalidOperation" fails with "Unsupported operation: InvalidOperation" |
| Protocol.ScenarioResults | Calculator.Client/Services/CalculatorClientService.cs:176-186 | in the scenario below, the Add call's caller gets 5 and the Divide by zero caller gets the division failure |
| Protocol.IssueThreeCalls | Calculator.Client/Services/CalculatorClientService.cs:125-160 | three published calls are all waiting and none has ended |
| Protocol.AnswerInReverse | Calculator.Client/Services/CalculatorClientService.cs:196-232 | responses arriving in reverse order each end their own call |
| Protocol.DuplicateThenTimeout | Calculator.Client/Services/CalculatorClientService.cs:165-232 | a duplicate response changes nothing, a timeout ends the last call, and its late response changes nothing |
| Protocol.InterleavedCalls | Calculator.Client/Services/CalculatorClientService.cs:125-232 | after reordering, duplication and a timeout, each call has ended with its own result and the table is empty |
| Protocol.RestartAfterDispose | Calculator.Server/Services/RabbitMQConsumerService.cs:79-110 | a service that consumed and was disposed cannot consume again: the restart issues nothing and records no tag |

## Left out

- Broker I/O and connection management are left out; broker calls are entries in a command log. Calculator.Server/Services/RabbitMQConnectionService.cs is not part of this model.
- Concurrency is left out. The model covers neither the atomicity of `ConcurrentDictionary` nor the `Task.WhenAny` race, which become discrete events in a chosen order. The client's asynchronous continuations are folded into the event that resolves a call.
- IEEE-754 doubles are left out: operands are reals, so there are no NaN, infinities or rounding.
- JSON serialisation and deserialisation are left out: a decoded body is an `Option` argument. The server's second decode in its general handler is assumed to give the same request.
- Timestamps, `ProcessingTimeMs`, the stopwatch, logging and GUID generation are left out. A generated id is assumed fresh.
- The request and response records follow the client-side layout in Calculator.Client/Models. The server-side model files are not part of this model.
- The client's own CalculationOperation enum (namespace Calculator.Client.Models) is not part of this model. `BuildRequest` prints the operation with the server's `ToStringValue`, assuming the client's enum has the same four names.
- The client's own RabbitMQConfiguration is not part of this model. Its defaults are taken from Calculator.Server/Models/RabbitMQConfiguration.cs.
- Operations.ToLowerInvariant: folds only the ASCII letters A-Z, while .NET's `ToLowerInvariant` also folds non-ASCII letters.
- Operations.ToOperation: because of that, the model does not say which non-ASCII spellings, if any, the source would accept as a name.
- Numerals.TryParseInt32: does not accept trailing NUL characters or culture-specific signs. Only white space, one ASCII sign and ASCII digits are accepted.
- Client.CalculatorClient.constructor: does not model its throwing when no channel can be created; a client always starts with its channel set up.
- Client.CalculatorClient.OnResponseReceived: a response with a null correlation id makes `TryRemove` throw, which the general catch swallows. Correlation ids are plain strings here, so such a response is the same as one with an unknown id: nothing changes.
- Client.CalculatorClient.TimeoutElapsed: a configured timeout of -1 ms (`Timeout.Infinite`) never elapses, so the event is only modelled for 0 ms or more; the call then waits until its response or `Dispose`.
- Client.CalculatorClient.Dispose: the `catch` branch is not modelled. Closing the channel is assumed not to throw.
- Consumer.ConsumerService.OnMessageReceived: ack and nack are assumed to succeed. The handler is only modelled for a service with an open channel, since it runs only for a consumer attached to that channel, and a closed channel delivers nothing.
- Consumer.ConsumerService.SetupQueuesAndExchanges: once a channel exists, the declarations, the bind and the QoS setting are assumed to succeed; only creating the channel can fail.
- Consumer.ConsumerService.StopConsuming: `BasicCancel` is assumed to succeed. In the source a throwing cancel is swallowed before the tag is cleared, so a later stop cancels again; the model always clears the tag.
- Consumer.ConsumerService.Dispose: the `catch` branch is not modelled. Closing the channel is assumed not to throw.
- Consumer.DeliveryActions: a request whose correlation id decodes to JSON null is not modelled, because `Request.correlationId` is a plain string. In the source that null is copied into the error response's id and can reach the publish's correlation-id property.
- Consumer.ConsumerService.StartConsuming: the wait `Task.Delay(Timeout.Infinite, cancellationToken)` and its cancellation are left out; the method ends once the consumer is registered.
- The `_ => throw` arm of `CalculateAsync`'s switch and the `"?"` arm of `ToSymbol` cannot be reached with four operations, so the model has no such branch.
- The first two `AddCalculatorClientServices` overloads, the console program, the hosting services and the certificate generator only wire or present the core and are left out.
