/**
 The exceptions that cross the boundaries of the core, and `str(e)` for each.
 A Python `raise` becomes an `Err` value of `Attempt`.
 */
module Errors {

  datatype Exc =
    /** `websockets.exceptions.WebSocketException` (including a stream closed abnormally). */
    | WebSocketError(detail: string)
    /** `ConnectionError`, and the error the TTS client maps WebSocket failures to. */
    | ConnectionFailure(detail: string)
    /** `TimeoutError`. */
    | TimedOut(detail: string)
    /** `CircuitBreakerOpenException`, raised by a breaker that refuses a call. */
    | CircuitOpen(detail: string)
    /** Any other exception, with its class name. */
    | OtherError(typeName: string, detail: string)
    /** `tenacity.RetryError`: every attempt failed and the last one raised `last`. */
    | RetryExhausted(last: Exc)

  /** The outcome of a call that either returns a value or raises. */
  datatype Attempt<+T> = Ok(value: T) | Err(error: Exc)

  /** The exception's class name, as Python reports it. */
  function TypeName(e: Exc): string
  {
    match e
    case WebSocketError(_) => "WebSocketException"
    case ConnectionFailure(_) => "ConnectionError"
    case TimedOut(_) => "TimeoutError"
    case CircuitOpen(_) => "CircuitBreakerOpenException"
    case OtherError(name, _) => name
    case RetryExhausted(_) => "RetryError"
  }

  /** `str(e)`: the exception's own message; a `RetryError` shows the failed
      final attempt (the future's memory address is not modelled). */
  function Message(e: Exc): string
  {
    match e
    case WebSocketError(d) => d
    case ConnectionFailure(d) => d
    case TimedOut(d) => d
    case CircuitOpen(d) => d
    case OtherError(_, d) => d
    case RetryExhausted(last) => "RetryError[<Future state=finished raised " + TypeName(last) + ">]"
  }
}
