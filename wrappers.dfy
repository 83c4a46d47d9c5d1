/** Optional values and the outcome of a call that may throw. */
module Wrappers {

  /** A value that may be absent (`undefined` / `null` in the source). */
  datatype Option<+T> = None | Some(value: T) {
    function GetOr(default: T): T {
      match this
      case Some(v) => v
      case None => default
    }
  }

  /** What a JavaScript `throw` carries: an `Error` with a message, or any other value. */
  datatype Thrown = ErrorWithMessage(message: string) | NonErrorValue

  /** The message the source records for a caught value:
      `error instanceof Error ? error.message : "Unknown error"`. */
  function MessageOf(t: Thrown): string {
    match t
    case ErrorWithMessage(m) => m
    case NonErrorValue => "Unknown error"
  }

  /** The outcome of an awaited call: a value, or a thrown value. */
  datatype Try<+T> = Ok(value: T) | Threw(thrown: Thrown)
}
