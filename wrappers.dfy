/** Optional values and results that carry an error instead of raising it. */
module Wrappers {

  /** `nil` (None) or a present value. */
  datatype Option<+T> = None | Some(value: T)

  /** Either a value or the error a Ruby method would have raised. */
  datatype Result<+R, +E> = Success(value: R) | Failure(error: E)
}
