/** Small result types shared by every module of the model. */
module Wrappers {

  datatype Option<+T> = None | Some(value: T)

  /** The outcome of a piece of Python that may raise: either it returned a
      value, or an exception escaped carrying its message. */
  datatype Try<+T> = Returned(value: T) | Raised(error: string)
}
