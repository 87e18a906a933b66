/**
 The service's error taxonomy (app/utils/exceptions.py) and the HTTP status and error body each
 error surfaces with (the exception handlers of app/main.py).
 */
module Errors {
  import Text

  /** One constructor per exception class that can leave the service. */
  datatype Error =
    /** `AIServiceException(detail)`: the base class, status 500 by default. */
    | ServiceFailure(detail: string)
    /** `ClaudeAPIException`: upstream failure or unparseable model output; `detail` is already prefixed. */
    | UpstreamFailure(detail: string)
    /** `InvalidRequestException`: a local precondition failed. */
    | InvalidRequest(detail: string)
    /** `RateLimitException`: the backend throttled the call. */
    | RateLimited(detail: string)
    /** Any other exception (KeyError, TypeError, a failed response validation): status 500. */
    | Internal
    /** A request body rejected by request validation, naming the fields that failed: status 422. */
    | ValidationFailed(fields: seq<string>)

  const ClaudePrefix := "Claude API Error: "
  const RateLimitDefault := "Rate limit exceeded"

  /** `ClaudeAPIException(detail)`. */
  function ClaudeApiError(detail: string): (e: Error)
    ensures e.UpstreamFailure? && |e.detail| == |ClaudePrefix| + |detail|
    ensures e.detail[..|ClaudePrefix|] == ClaudePrefix && e.detail[|ClaudePrefix|..] == detail
    ensures StatusCode(e) == 502
  {
    UpstreamFailure(ClaudePrefix + detail)
  }

  /** `RateLimitException()` with its default detail. */
  function RateLimitError(): (e: Error)
    ensures StatusCode(e) == 429 && Detail(e) == RateLimitDefault
  {
    RateLimited(RateLimitDefault)
  }

  /** True for the subclasses of `AIServiceException`, which the service's own handler renders. */
  predicate IsServiceException(e: Error) {
    e.ServiceFailure? || e.UpstreamFailure? || e.InvalidRequest? || e.RateLimited?
  }

  /** The HTTP status each error kind is answered with. */
  function StatusCode(e: Error): int {
    match e
    case ServiceFailure(_) => 500
    case UpstreamFailure(_) => 502
    case InvalidRequest(_) => 400
    case RateLimited(_) => 429
    case Internal => 500
    case ValidationFailed(_) => 422
  }

  /** The `detail` of the error body. */
  function Detail(e: Error): string {
    match e
    case ServiceFailure(d) => d
    case UpstreamFailure(d) => d
    case InvalidRequest(d) => d
    case RateLimited(d) => d
    case Internal => "Internal server error"
    case ValidationFailed(fields) => Text.Join(fields, ", ")
  }

  /** `ErrorResponse`: the documented error body. */
  datatype ErrorResponse = ErrorResponse(detail: string, errorType: string)

  /** `ErrorResponse(detail=...)` with the `error_type` left at its default. */
  function NewErrorResponse(detail: string): (r: ErrorResponse)
    ensures r.detail == detail && r.errorType == "error"
  {
    ErrorResponse(detail, "error")
  }

  /** The body each handler of the application answers with. */
  function ErrorBody(e: Error): (r: ErrorResponse)
    ensures IsServiceException(e) ==> r == ErrorResponse(Detail(e), "ai_service_error")
    ensures e.Internal? ==> r == ErrorResponse("Internal server error", "internal_error")
    ensures e.ValidationFailed? ==> r.errorType == "validation_error"
  {
    match e
    case Internal => ErrorResponse("Internal server error", "internal_error")
    case ValidationFailed(_) => ErrorResponse(Detail(e), "validation_error")
    case _ => ErrorResponse(Detail(e), "ai_service_error")
  }

  /** The three specific exception classes are told apart by their status alone, and every
      service exception keeps the detail it was raised with. */
  lemma StatusIdentifiesServiceKind(e1: Error, e2: Error)
    requires IsServiceException(e1) && IsServiceException(e2)
    requires !e1.ServiceFailure? && !e2.ServiceFailure?
    ensures StatusCode(e1) == StatusCode(e2) <==> (e1.UpstreamFailure? == e2.UpstreamFailure? && e1.InvalidRequest? == e2.InvalidRequest?)
    ensures ErrorBody(e1).detail == e1.detail
  {
  }

  /** The service's results: a value or the error the Python code raises. */
  datatype Result<+T> = Ok(value: T) | Err(error: Error) {
    predicate IsFailure() {
      Err?
    }

    function PropagateFailure<U>(): Result<U>
      requires Err?
    {
      Err(error)
    }

    function Extract(): T
      requires Ok?
    {
      value
    }
  }
}
