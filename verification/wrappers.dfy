/** Option and Result used throughout the model: `Option` stands for the
    C# "Try..." pattern (a bool result plus an out parameter) and `Result` for an
    operation that can throw. */
module Wrappers {

  datatype Option<+T> = None | Some(value: T) {

    /** The wrapped value, or `default` when there is none. */
    function GetOr(default: T): T {
      match this
      case Some(v) => v
      case None => default
    }
  }

  datatype Result<+R, +E> = Success(value: R) | Failure(error: E)
}
