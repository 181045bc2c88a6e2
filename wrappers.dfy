/** Optional values and fallible results, standing in for Go's nil pointers
    and its (value, error) return pairs. */
module Wrappers {

  /** A Go pointer that may be nil. */
  datatype Option<+T> = None | Some(value: T)

  /** A Go result pair `(value, error)`: exactly one of the two is meaningful. */
  datatype Result<+T, +E> = Ok(value: T) | Err(error: E)
}
