/** Option and Result values for the model: Option stands for Python's `None`-or-value,
    Result for a value or a raised exception (carried as a short description). */
module Wrappers {

  datatype Option<+T> = None | Some(value: T) {
    function GetOr(default: T): T {
      match this
      case Some(v) => v
      case None => default
    }
  }

  datatype Result<+R> = Success(value: R) | Failure(error: string)
}
