/**
 * The two wire records. Timestamps and the processing time are not modelled;
 * operands and results are real numbers rather than IEEE-754 doubles.
 */
module Messages {
  import opened Wrappers

  /** A calculation request. `operation` and `replyTo` are nullable strings. */
  datatype Request = Request(
    correlationId: string,
    operation: Option<string>,
    number1: real,
    number2: real,
    replyTo: Option<string>)

  /** A calculation response. `errorMessage` and `operation` are nullable strings. */
  datatype Response = Response(
    correlationId: string,
    result: real,
    success: bool,
    errorMessage: Option<string>,
    operation: Option<string>)

  /** `new CalculationResponse()`: every property at its initialiser, so `success` starts true. */
  function NewResponse(): (r: Response)
    ensures r.success && r.errorMessage.None? && r.result == 0.0
  {
    Response("", 0.0, true, None, Some(""))
  }

  /** `string.IsNullOrEmpty`. */
  predicate IsNullOrEmpty(s: Option<string>) {
    s.None? || s.value == ""
  }
}
