/** Optional values and error returns, standing for TypeScript's `T | undefined`,
    `T | null` and thrown errors. */
module Wrappers {

  datatype Option<+T> = None | Some(value: T)

  datatype Result<+T, +E> = Success(value: T) | Failure(error: E)
}
