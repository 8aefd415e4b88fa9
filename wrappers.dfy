/** Option and Result wrappers used throughout the model. */
module Wrappers {

  /** Python's `Optional[T]`: a value or `None`. */
  datatype Option<+T> = None | Some(value: T) {
    /** `value if value is not None else default`, and `dict.get(key, default)`. */
    function GetOr(default: T): T {
      match this
      case Some(v) => v
      case None => default
    }
  }

  /** A value, or the exception the operation raises instead. */
  datatype Result<+T, +E> = Success(value: T) | Failure(error: E)
}
