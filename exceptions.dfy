/** The SDK's error taxonomy (pplx_sdk/core/exceptions.py) as a datatype,
    together with the other exceptions that cross the modelled code:
    Python built-ins, record validation, the HTTP library's own errors
    and the web framework's HTTP error. */
module Exceptions {
  import opened Wrappers
  import opened Json
  import Numbers

  /** One constructor per exception class of the SDK. Each carries the
      attributes its `__init__` sets. */
  datatype SdkError =
    | SdkBase(message: string, details: map<string, Json>)
    | Transport(message: string, statusCode: Option<int>, responseBody: Option<string>)
    | Authentication(message: string, statusCode: Option<int>, responseBody: Option<string>)
    | RateLimit(message: string, retryAfter: Option<int>)
    | Streaming(message: string, details: map<string, Json>)
    | Validation(message: string, details: map<string, Json>)

  /** The SDK's exception classes, for `isinstance` questions. */
  datatype ErrorClass =
    | PerplexitySDKError | TransportError | AuthenticationError
    | RateLimitError | StreamingError | ValidationError

  /** `PerplexitySDKError(message, details)`: `details or {}`. */
  function NewSdkError(message: string, details: Option<map<string, Json>>): (e: SdkError)
    ensures Message(e) == message
    ensures details.None? ==> Details(e) == map[]
    ensures details.Some? ==> Details(e) == details.value
    ensures IsInstance(e, PerplexitySDKError) && !IsInstance(e, TransportError)
  {
    SdkBase(message, details.GetOr(map[]))
  }

  /** `TransportError(message, status_code=None, response_body=None)`. */
  function NewTransportError(message: string, statusCode: Option<int>, responseBody: Option<string>): (e: SdkError)
    ensures IsInstance(e, TransportError) && !IsInstance(e, AuthenticationError) && !IsInstance(e, RateLimitError)
    ensures Message(e) == message && Details(e) == map[]
    ensures StatusCode(e) == statusCode && ResponseBody(e) == responseBody
  {
    Transport(message, statusCode, responseBody)
  }

  /** `AuthenticationError` inherits `TransportError.__init__` unchanged:
      its status code is whatever the caller passes. */
  function NewAuthenticationError(message: string, statusCode: Option<int>, responseBody: Option<string>): (e: SdkError)
    ensures IsInstance(e, AuthenticationError) && IsInstance(e, TransportError)
    ensures Message(e) == message && Details(e) == map[]
    ensures StatusCode(e) == statusCode && ResponseBody(e) == responseBody
  {
    Authentication(message, statusCode, responseBody)
  }

  /** `RateLimitError(message, retry_after=None)`: status 429, no body. */
  function NewRateLimitError(message: string, retryAfter: Option<int>): (e: SdkError)
    ensures IsInstance(e, RateLimitError) && IsInstance(e, TransportError)
    ensures Message(e) == message && Details(e) == map[]
    ensures StatusCode(e) == Some(429) && ResponseBody(e) == None
    ensures e.RateLimit? && e.retryAfter == retryAfter
  {
    RateLimit(message, retryAfter)
  }

  function NewStreamingError(message: string, details: Option<map<string, Json>>): (e: SdkError)
    ensures Message(e) == message && Details(e) == details.GetOr(map[])
    ensures IsInstance(e, StreamingError) && !IsInstance(e, TransportError)
  {
    Streaming(message, details.GetOr(map[]))
  }

  function NewValidationError(message: string, details: Option<map<string, Json>>): (e: SdkError)
    ensures Message(e) == message && Details(e) == details.GetOr(map[])
    ensures IsInstance(e, ValidationError) && !IsInstance(e, TransportError)
  {
    Validation(message, details.GetOr(map[]))
  }

  /** `e.message`, which is also `str(e)`. */
  function Message(e: SdkError): string {
    e.message
  }

  /** `e.details`: the transport family passes none up to the base class. */
  function Details(e: SdkError): map<string, Json> {
    match e
    case SdkBase(_, d) => d
    case Streaming(_, d) => d
    case Validation(_, d) => d
    case _ => map[]
  }

  predicate IsTransport(e: SdkError) {
    e.Transport? || e.Authentication? || e.RateLimit?
  }

  /** `e.status_code`, an attribute of the transport family only. */
  function StatusCode(e: SdkError): Option<int>
    requires IsTransport(e)
  {
    if e.RateLimit? then Some(429) else e.statusCode
  }

  /** `e.response_body`, an attribute of the transport family only. */
  function ResponseBody(e: SdkError): Option<string>
    requires IsTransport(e)
  {
    if e.RateLimit? then None else e.responseBody
  }

  /** `isinstance(e, cls)` over the class hierarchy. */
  predicate IsInstance(e: SdkError, cls: ErrorClass) {
    match cls
    case PerplexitySDKError => true
    case TransportError => IsTransport(e)
    case AuthenticationError => e.Authentication?
    case RateLimitError => e.RateLimit?
    case StreamingError => e.Streaming?
    case ValidationError => e.Validation?
  }

  /** The class `type(e)` of an error. */
  function ClassOf(e: SdkError): ErrorClass {
    match e
    case SdkBase(_, _) => PerplexitySDKError
    case Transport(_, _, _) => TransportError
    case Authentication(_, _, _) => AuthenticationError
    case RateLimit(_, _) => RateLimitError
    case Streaming(_, _) => StreamingError
    case Validation(_, _) => ValidationError
  }

  /** The direct base class in the hierarchy (the root is its own). */
  function Parent(cls: ErrorClass): ErrorClass {
    match cls
    case AuthenticationError => TransportError
    case RateLimitError => TransportError
    case _ => PerplexitySDKError
  }

  /** `isinstance(e, cls)` holds exactly when `cls` is `type(e)` or one of
      its ancestors: the datatype reproduces the class hierarchy. */
  lemma IsInstanceIsAncestry(e: SdkError, cls: ErrorClass)
    ensures IsInstance(e, cls) <==>
      cls == ClassOf(e) || cls == Parent(ClassOf(e)) || cls == Parent(Parent(ClassOf(e)))
  {
  }

  /** Every exception that reaches the modelled code. All of them are
      subclasses of Python's `Exception`. */
  datatype Fault =
    | Sdk(error: SdkError)
    | ValueError(message: string)
    | TypeError(message: string)
    | TimeoutError(message: string)
    | AttributeError(message: string)
    | RecordValidationError(message: string)
    | HttpLibraryError(message: string)
    | AssertionError
    | HttpException(statusCode: int, detail: string)

  /** What `time.sleep` raises when asked to sleep a negative time. */
  const NegativeSleep: Fault := ValueError("sleep length must be non-negative")

  /** `str(e)`; an HTTP exception prints its status before its detail. */
  function FaultMessage(f: Fault): string {
    match f
    case Sdk(e) => Message(e)
    case ValueError(m) => m
    case TypeError(m) => m
    case TimeoutError(m) => m
    case AttributeError(m) => m
    case RecordValidationError(m) => m
    case HttpLibraryError(m) => m
    case AssertionError => ""
    case HttpException(code, d) => Numbers.IntToString(code) + ": " + d
  }
}
