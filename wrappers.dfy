/** Option and Result values shared by every module of the model. */
module Wrappers {

  /** An optional value: `None` stands for a missing key, `null` or `None` in the source. */
  datatype Option<T> = None | Some(value: T) {
    function GetOr(default: T): T {
      match this
      case Some(v) => v
      case None => default
    }
  }

  /** The outcome of an operation that can fail with an error of type `E`. */
  datatype Result<T, E> = Success(value: T) | Failure(error: E)
}
