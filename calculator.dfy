/**
 * The calculation engine: the four arithmetic operations and the
 * request-to-response computation with its error taxonomy.
 */
module Calculator {
  import opened Wrappers
  import opened Operations
  import opened Messages

  /** The exceptions the engine catches, each with the message it reports. */
  datatype Fault =
    | DivideByZero
    | Unsupported(message: string)
    | Unexpected
  {
    function Message(): string {
      match this
      case DivideByZero => DivideByZeroMessage
      case Unsupported(m) => m
      case Unexpected => UnexpectedMessage
    }
  }

  const DivideByZeroMessage: string := "Cannot divide by zero"
  const UnexpectedMessage: string := "An unexpected error occurred during calculation"

  function Add(num1: real, num2: real): (r: real)
    ensures r - num2 == num1 && r - num1 == num2
  {
    num1 + num2
  }

  function Subtract(num1: real, num2: real): (r: real)
    ensures r + num2 == num1
  {
    num1 - num2
  }

  function Multiply(num1: real, num2: real): (r: real)
    ensures num2 != 0.0 ==> r / num2 == num1
    ensures num1 == 0.0 || num2 == 0.0 ==> r == 0.0
  {
    num1 * num2
  }

  /** Division; a zero divisor is a `DivideByZeroException`, not a value. */
  function Divide(num1: real, num2: real): (r: Result<real, Fault>)
    ensures r.Failure? <==> num2 == 0.0
    ensures r.Failure? ==> r.error == DivideByZero
    ensures r.Success? ==> r.value * num2 == num1
  {
    if num2 == 0.0 then Failure(DivideByZero) else Success(num1 / num2)
  }

  /** The switch over the parsed operation. */
  function Apply(op: Operation, num1: real, num2: real): (r: Result<real, Fault>)
    ensures r.Failure? <==> op.Divide? && num2 == 0.0
    ensures r.Failure? ==> r.error == DivideByZero
  {
    match op
    case Add => Success(Add(num1, num2))
    case Subtract => Success(Subtract(num1, num2))
    case Multiply => Success(Multiply(num1, num2))
    case Divide => Divide(num1, num2)
  }

  /**
   * Parsing and applying the request's operation. A null operation string
   * makes `ToLowerInvariant` throw, which only the general handler catches.
   */
  function Evaluate(operation: Option<string>, num1: real, num2: real): (r: Result<real, Fault>)
    ensures r == Failure(Unexpected) <==> operation.None?
    ensures (r.Failure? && r.error.Unsupported?) <==> operation.Some? && ToOperation(operation.value).Failure?
    ensures r == Failure(DivideByZero) <==>
      operation.Some? && ToOperation(operation.value) == Success(Operations.Divide) && num2 == 0.0
    ensures r.Success? <==>
      operation.Some? && ToOperation(operation.value).Success? && !(ToOperation(operation.value).value.Divide? && num2 == 0.0)
  {
    match operation
    case None => Failure(Unexpected)
    case Some(s) =>
      match ToOperation(s)
      case Failure(m) => Failure(Unsupported(m))
      case Success(op) => Apply(op, num1, num2)
  }

  /** The response the engine builds for a request. */
  function Calculate(request: Request): (r: Response)
    ensures r.correlationId == request.correlationId && r.operation == request.operation
    ensures r.success <==> r.errorMessage.None?
    ensures !r.success ==> r.result == 0.0
  {
    var response := NewResponse().(correlationId := request.correlationId, operation := request.operation);
    match Evaluate(request.operation, request.number1, request.number2)
    case Success(v) => response.(result := v, success := true)
    case Failure(f) => response.(success := false, errorMessage := Some(f.Message()))
  }

  /**
   * `CalculateAsync`: the response object is created with the echoed fields
   * and then filled in by the try block or by one of its three handlers.
   */
  method CalculateAsync(request: Request) returns (response: Response)
    ensures response == Calculate(request)
  {
    response := NewResponse();
    response := response.(correlationId := request.correlationId);
    response := response.(operation := request.operation);
    if request.operation.None? {
      response := response.(success := false);
      response := response.(errorMessage := Some(UnexpectedMessage));
      return;
    }
    var parsed := ToOperation(request.operation.value);
    if parsed.Failure? {
      response := response.(success := false);
      response := response.(errorMessage := Some(parsed.error));
      return;
    }
    var value: real;
    match parsed.value {
      case Add => value := Add(request.number1, request.number2);
      case Subtract => value := Subtract(request.number1, request.number2);
      case Multiply => value := Multiply(request.number1, request.number2);
      case Divide =>
        var quotient := Divide(request.number1, request.number2);
        if quotient.Failure? {
          response := response.(success := false);
          response := response.(errorMessage := Some(DivideByZeroMessage));
          return;
        }
        value := quotient.value;
    }
    response := response.(result := value);
    response := response.(success := true);
  }

  /** The arithmetic an operation denotes on operands it accepts. */
  function Arithmetic(op: Operation, num1: real, num2: real): real
    requires op == Operations.Divide ==> num2 != 0.0
  {
    match op
    case Add => num1 + num2
    case Subtract => num1 - num2
    case Multiply => num1 * num2
    case Divide => num1 / num2
  }

  /** A request naming a known operation, in any letter case, with a non-zero divisor for Divide succeeds with the arithmetic result. */
  lemma KnownOperationSucceeds(request: Request, op: Operation)
    requires request.operation.Some? && EqualsIgnoreCase(request.operation.value, ToStringValue(op))
    requires op == Operations.Divide ==> request.number2 != 0.0
    ensures Calculate(request).success
    ensures Calculate(request).result == Arithmetic(op, request.number1, request.number2)
  {
    ParseAcceptsExactlyNames(request.operation.value, op);
  }

  /** Divide with a zero divisor fails with the fixed message, and echoes the correlation id. */
  lemma DivideByZeroFails(request: Request)
    requires request.operation.Some? && EqualsIgnoreCase(request.operation.value, "Divide")
    requires request.number2 == 0.0
    ensures !Calculate(request).success
    ensures Calculate(request).errorMessage == Some(DivideByZeroMessage)
    ensures Calculate(request).correlationId == request.correlationId
  {
    ParseAcceptsExactlyNames(request.operation.value, Operations.Divide);
  }

  /** A text that names no operation fails with the parser's message, which quotes the text. */
  lemma UnknownOperationFails(request: Request)
    requires request.operation.Some?
    requires forall op :: !EqualsIgnoreCase(request.operation.value, ToStringValue(op))
    ensures !Calculate(request).success
    ensures Calculate(request).errorMessage == Some(UnsupportedPrefix + request.operation.value)
  {
    var s := request.operation.value;
    if ToOperation(s).Success? {
      ParseAcceptsExactlyNames(s, ToOperation(s).value);
      assert false;
    }
  }

  /** A request without an operation string fails with the general handler's message. */
  lemma NullOperationFails(request: Request)
    requires request.operation.None?
    ensures !Calculate(request).success
    ensures Calculate(request).errorMessage == Some(UnexpectedMessage)
  {
  }

  /** The engine succeeds exactly when the operation parses and is not a division by zero. */
  lemma SuccessCharacterised(request: Request)
    ensures Calculate(request).success <==>
      (request.operation.Some? && ToOperation(request.operation.value).Success?
       && !(ToOperation(request.operation.value).value == Operations.Divide && request.number2 == 0.0))
  {
  }
}
