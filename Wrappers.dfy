/** Small option and outcome datatypes shared by the other modules. */
module Wrappers {

  /** A value that may be missing: the model's stand-in for a null reference. */
  datatype Option<T> = None | Some(value: T)

  /** The outcome of an operation that either succeeds or reports an error
      (the model's stand-in for a thrown exception). */
  datatype Outcome<E> = Pass | Fail(error: E)
}
