/** Optional values and results, shared by every module. */
module Wrappers {
  datatype Option<+T> = None | Some(value: T)

  datatype Result<+T, +E> = Ok(value: T) | Err(error: E)

  /** The result of something done for its checks alone; `:-` goes on only if it passed. */
  datatype Validation<+E> = Pass | Fail(error: E) {
    predicate IsFailure() { Fail? }

    function PropagateFailure<T>(): Result<T, E>
      requires Fail?
    {
      Err(error)
    }
  }
}
