/** Option, Result and Outcome: how the model spells null references, thrown
    exceptions and HTTP 400 answers of the source. */
module Wrappers {

  /** A value that may be missing: a C# `null` reference, an absent JSON key. */
  datatype Option<+T> = None | Some(value: T) {
    function GetOr(default: T): T {
      match this
      case Some(v) => v
      case None => default
    }
  }

  /** A value or the error that the source raises instead of returning it. */
  datatype Result<+R, +E> = Ok(value: R) | Err(error: E)

  /** Success, or the error that the source raises. */
  datatype Outcome<+E> = Pass | Fail(error: E)
}
