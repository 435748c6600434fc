/** Option and Result, the two failure-carrying shapes the model uses in place of
    Python's `None` returns and `{"error": ...}` dictionaries. */
module Wrappers {

  datatype Option<+T> = None | Some(value: T) {
    function GetOr(default: T): T {
      match this
      case Some(v) => v
      case None => default
    }
  }

  datatype Result<+T, +E> = Success(value: T) | Failure(error: E)
}
