/** Failure-carrying values shared by every module: Python exceptions become
    `Failure(e)` results, Python's `None` becomes `None`. */
module Wrappers {

  datatype Option<T> = None | Some(value: T)

  /** The Python exceptions the modelled code raises. */
  datatype Error =
    | ValueError
    | TypeError
    | KeyError
    | IndexError
    | AssertionError
    | AttributeError

  datatype Result<T> = Success(value: T) | Failure(error: Error) {
    predicate IsFailure() {
      Failure?
    }

    function PropagateFailure<U>(): Result<U>
      requires Failure?
    {
      Failure(error)
    }

    function Extract(): T
      requires Success?
    {
      value
    }
  }

  /** A dynamically typed operand of a Python comparison: either an instance
      of the expected class or a value of some other class. */
  datatype Operand<T> = Instance(value: T) | Foreign
}
