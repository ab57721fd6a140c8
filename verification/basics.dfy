/** `Option` and `Result`, shared by every module of the model. */
module Basics {

  /** A value that may be absent; stands for TypeScript's `T | null` and optional fields. */
  datatype Option<+T> = None | Some(value: T) {

    /** The wrapped value, or `default` when absent. */
    function GetOr(default: T): T {
      match this
      case Some(v) => v
      case None => default
    }
  }

  /** The outcome of an operation that can throw, like `useAI`: `Failure` carries the error message. */
  datatype Result<+R> = Success(value: R) | Failure(error: string)
}
