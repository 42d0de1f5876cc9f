/** Failure-carrying values shared by the services: `Option` for Python's
    `None`-or-value results and `Result` for operations whose errors the
    source catches and turns into a fallback. */
module Wrappers {

  datatype Option<+T> = None | Some(value: T)

  datatype Result<+R> = Success(value: R) | Failure(error: string)
}
