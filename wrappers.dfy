/** Option and Result values shared by the whole model. */
module Wrappers {

  /** Python's `None` or a present value. */
  datatype Option<+T> = None | Some(value: T) {
    function GetOr(default: T): T {
      match this
      case Some(v) => v
      case None => default
    }
  }

  /** A value or a raised exception. */
  datatype Result<+R, +E> = Success(value: R) | Failure(error: E)
}
