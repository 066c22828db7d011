/** The two wrappers the model uses: Option for a JSON member that may be
    absent, Result for the outcome of binding a request body. */
module Wrappers {

  datatype Option<+T> = None | Some(value: T)

  datatype Result<+T, +E> = Success(value: T) | Failure(error: E)
}
