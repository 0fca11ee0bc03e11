/** Small value wrappers shared by the model. */
module Wrappers {

  /** A value that may be absent (`undefined` in the source). */
  datatype Option<+T> = None | Some(value: T)

  /** The outcome of a host call that may throw (or whose promise may reject). */
  datatype Attempt<+T> = Returns(value: T) | Throws
}
