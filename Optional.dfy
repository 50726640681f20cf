/** Option and Result, used for JavaScript's `null`/`undefined` and for the
    error paths of the record store. */
module Optional {

  datatype Option<+T> = None | Some(value: T)

  datatype Result<+T, +E> = Success(value: T) | Failure(error: E)
}
