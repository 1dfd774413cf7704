/** Option and Result types shared by the model.
- Option<T>: Python's "a value or None"
- Result<T, E>: a normal return or a raised exception carrying E
 */
module Wrappers {

  datatype Option<+T> = None | Some(value: T) {

    /** Returns the value in Some, or `default` for None (Python's `x or default`
        when only None is falsy). */
    function GetOr(default: T): T {
      match this
      case Some(v) => v
      case None => default
    }
  }

  datatype Result<+T, +E> = Success(value: T) | Failure(error: E)
}
