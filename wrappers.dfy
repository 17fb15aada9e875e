/** Option and Result, failure-compatible so that `:-` can be used with them. */
module Wrappers {

  datatype Option<+T> = None | Some(value: T)

  datatype Result<+T, +E> = Success(value: T) | Failure(error: E) {
    predicate IsFailure() {
      Failure?
    }

    function PropagateFailure<U>(): Result<U, E>
      requires Failure?
    {
      Failure(error)
    }

    function Extract(): T
      requires Success?
    {
      value
    }
  }
}

/** How a request ends when it does not succeed. */
module Errors {

  /** An `HTTPException` raised by a handler, or any other exception that
      escapes it; the web framework answers the latter with status 500. */
  datatype Failure =
    | HttpError(status: int, detail: string)
    | Crash(exception: string)
  {
    function Status(): int {
      match this
      case HttpError(s, _) => s
      case Crash(_) => 500
    }
  }
}
