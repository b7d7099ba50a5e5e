/** Small failure-carrying datatypes shared by every module of the model. */
module Wrappers {

  /** Python's `None` or a value. */
  datatype Option<+T> = None | Some(value: T)

  /** The result of running a Python callable: it returned a value, or it
      raised an exception that the caller does not handle. */
  datatype Outcome<+T> = Done(value: T) | Raised
}
