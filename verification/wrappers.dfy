/** Wrappers shared by the rest of the model: `Option` stands for
    the source's `T | null | undefined`, `Result` for a value-or-thrown-error. */
module Wrappers {

  datatype Option<+T> = None | Some(value: T) {

    /** Returns the value held by Some, or `default` for None */
    function GetOr(default: T): T {
      match this
      case Some(v) => v
      case None => default
    }
  }

  datatype Result<+R, +E> = Success(value: R) | Failure(error: E)
}
