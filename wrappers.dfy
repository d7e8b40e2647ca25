/** Optional values and results with an error, as the TypeScript code expresses
    them with `undefined` and with thrown errors. */
module Wrappers {

  datatype Option<+T> = None | Some(value: T)

  datatype Result<+R, +E> = Success(value: R) | Failure(error: E)
}
