/** Option and Result, the two failure-carrying shapes the model uses for Kotlin's
    nullable values and for the exceptions its collaborators throw. */
module Wrappers {

  datatype Option<+T> = None | Some(value: T) {

    /** The value, or `default` when absent (Kotlin's `?:`). */
    function GetOr(default: T): T {
      match this
      case Some(v) => v
      case None => default
    }

    /** The zero- or one-element sequence holding the value. */
    function ToSeq(): seq<T> {
      match this
      case Some(v) => [v]
      case None => []
    }
  }

  /** `Err` carries the exception's message, which the JVM allows to be null. */
  datatype Result<+T> = Ok(value: T) | Err(message: Option<string>)

  /** Kotlin's string template of a nullable string: a null prints as "null". */
  function Shown(s: Option<string>): string {
    s.GetOr("null")
  }
}
