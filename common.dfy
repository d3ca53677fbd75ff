/** Optional values and fallible results shared by every part of the model. */
module Common {

  /** Swift's `Optional`: `nil` or a wrapped value. */
  datatype Option<T> = None | Some(value: T)

  /** The outcome of a throwing call. The thrown error itself is never inspected by the
      code modelled here (every `catch` either ignores it or replaces it by a fixed text). */
  datatype Result<T> = Ok(value: T) | Failure
}
