/** The outcome of a step that either produces a value or reports an error. */
module Wrappers {

  datatype Result<+T, +E> = Success(value: T) | Failure(error: E)

}
