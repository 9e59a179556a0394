/** Java's null references and exceptions, as values.

    A method of the logger either returns normally or throws; in the model it
    returns a `Result`, whose `Err` carries the exception that would have been
    thrown.  `Option` stands for a reference that may be null.
 */
module JavaLang {

  datatype Option<+T> = None | Some(value: T) {
    predicate IsFailure() { None? }
    function PropagateFailure<U>(): Option<U> requires None? { None }
    function Extract(): T requires Some? { value }
    function GetOr(default: T): T { if Some? then value else default }
  }

  /** The exceptions the modelled code throws, catches or wraps. */
  datatype Exception =
    | NullPointerException
    | IllegalArgumentException(message: string)
    | IllegalStateException(message: string)
    | ClassCastException
    | DateTimeParseException
    | IndexOutOfBoundsException
    | IOException(message: string)
    /** `new RuntimeException(message, cause)`; the cause is kept by kind only. */
    | RuntimeException(message: string, cause: Cause)
    | LoggingException(code: LoggingErrorCode, cause: Cause)

  /** The error codes of `LoggingException` that the modelled code uses. */
  datatype LoggingErrorCode = FAILED_INIT_LOGGING_INFRA

  /** What a wrapping exception remembers of the exception it wraps. */
  datatype Cause = NoCause | CausedByIO(ioMessage: string) | CausedByOther

  function CauseOf(e: Exception): Cause {
    if e.IOException? then CausedByIO(e.message) else CausedByOther
  }

  /** `new RuntimeException(ioException)`: the message is the cause's
      `toString()`. */
  function WrappedIO(message: string): Exception {
    RuntimeException("java.io.IOException: " + message, CausedByIO(message))
  }

  datatype Result<+T> = Ok(value: T) | Err(error: Exception) {
    predicate IsFailure() { Err? }
    function PropagateFailure<U>(): Result<U> requires Err? { Err(error) }
    function Extract(): T requires Ok? { value }
  }

  /** The outcome of a call that returns nothing (`void`) or throws. */
  datatype Outcome = Done | Thrown(error: Exception)

  /** `Math.min` */
  function Min(a: int, b: int): int { if a <= b then a else b }
}
