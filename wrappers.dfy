/** Helper datatypes for absent values and thrown errors: JavaScript's `undefined`/`null` become
    `None`, a thrown error becomes `Failure`. */
module Wrappers {

  datatype Option<+T> = None | Some(value: T) {

    /** `x ?? d`: the value when present, otherwise the default. */
    function GetOr(default: T): T {
      match this
      case Some(v) => v
      case None => default
    }
  }

  datatype Result<+R, +E> = Success(value: R) | Failure(error: E)

  /** The result of an operation that either completes or throws. */
  datatype Outcome<+E> = Pass | Fail(error: E)
}
