/// The client's error values, and the result type every fallible operation
/// returns. A Go function returning `(T, error)` becomes a `Result<T>`.
module Errors {

  datatype Error =
    | InvalidRateError
    | InvalidAngleError
    | InvalidDurationError
    | InvalidMixError
    | InvalidFieldError
    | InvalidGainError
    | InvalidSdiError
    | InvalidAudioProfileError
    | TimeoutError
    | InvalidDolbyProfileError
    | InvalidAudioChannelError
    | InvalidParametersError
      /** The plain error `intToBool` returns for anything but 0 or 1. */
    | BaseError
      /** A strconv syntax or range error. */
    | NumError
      /** A slice or index expression outside its string: a Go run-time panic. */
    | IndexOutOfRange
      /** A nil pointer dereferenced: a Go run-time panic. */
    | NilDereference
      /** `net.Dial` failed. */
    | DialError
      /** `conn.Write` failed; `eof` says whether it was `io.EOF`. */
    | WriteError(eof: bool)

  datatype Result<T> = Ok(value: T) | Err(error: Error)
  {
    predicate IsFailure()
    {
      Err?
    }

    function PropagateFailure<U>(): Result<U>
      requires Err?
    {
      Err(error)
    }

    function Extract(): T
      requires Ok?
    {
      value
    }
  }
}
