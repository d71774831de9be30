/** Nullable values and operations that can throw. */
module Wrappers {

  /** A C# nullable value (`T?`): `None` stands for `null`. */
  datatype Option<+T> = None | Some(value: T) {

    /** `value ?? default` */
    function GetOr(default: T): T {
      match this
      case Some(v) => v
      case None => default
    }
  }

  /** The outcome of an operation that may throw: `Failure` names the exception. */
  datatype Result<+R, +E> = Success(value: R) | Failure(error: E)
}
