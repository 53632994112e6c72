/** Failure-carrying values shared by every component: Go's `error` results,
    its `(T, error)` pairs, and the `%w` wrapping done by `fmt.Errorf`. */
module Wrappers {

  datatype Option<+T> = None | Some(value: T)

  /** A Go error value: a leaf message, or a context prefix wrapping a cause
      (what `fmt.Errorf("context: %w", cause)` builds). */
  datatype Error = Error(text: string) | Wrapped(context: string, cause: Error)

  /** A Go `error` result: nil (`Pass`) or an error. */
  datatype Outcome = Pass | Fail(error: Error)

  /** A Go `(T, error)` result. */
  datatype Result<+T> = Ok(value: T) | Err(error: Error)

  /** `err.Error()`: each wrap reads "context: cause". */
  function Message(e: Error): string
  {
    match e
    case Error(t) => t
    case Wrapped(c, cause) => c + ": " + Message(cause)
  }

  /** The originating error behind any number of wraps. */
  function Root(e: Error): (r: Error)
    ensures r.Error?
    ensures e.Error? ==> r == e
  {
    match e
    case Error(_) => e
    case Wrapped(_, cause) => Root(cause)
  }

  /** Wrapping keeps the originating cause and shows it at the end of the message. */
  lemma WrapKeepsCause(context: string, e: Error)
    ensures Root(Wrapped(context, e)) == Root(e)
    ensures Message(Wrapped(context, e)) == context + ": " + Message(e)
  {
  }
}
