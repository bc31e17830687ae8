/** Option and Result, the two shapes the adapter's outcomes take: `null` versus a value,
    and a thrown error versus a returned value. */
module Wrappers {

  datatype Option<+T> = None | Some(value: T)

  datatype Result<+R, +E> = Success(value: R) | Failure(error: E)
}
