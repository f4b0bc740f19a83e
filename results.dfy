/** Option and Result: the outcomes the model uses in place of `undefined`
    and of thrown exceptions. */
module Results {

  datatype Option<+T> = None | Some(value: T)

  datatype Result<+T, +E> = Success(value: T) | Failure(error: E)
}
