/** Option and Result, the two failure carriers the rest of the model uses. */
module Wrappers {

  /** A Kotlin nullable value: `None` is `null`. */
  datatype Option<+T> = None | Some(value: T) {
    /** Kotlin's elvis operator `this ?: default`. */
    function GetOr(default: T): T {
      match this
      case Some(v) => v
      case None => default
    }
  }

  /** The outcome of a step that may throw: `Err` carries the exception's message, if it has one. */
  datatype Result<+T> = Ok(value: T) | Err(message: Option<string>)
}
