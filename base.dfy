/** Optional values and results with an error, used wherever the Python code
    either returns nothing or raises. */
module Base {

  datatype Option<+T> = None | Some(value: T)

  datatype Result<+T, +E> = Success(value: T) | Failure(error: E)
}
