/** Option and the outcome of Python code that may raise. */
module Wrappers {

  /** Python's `None` versus a present value. */
  datatype Option<+T> = None | Some(value: T)

  /** The outcome of a piece of Python code: its value, or an exception that escapes it.
      The scripts never catch the exceptions modelled by `Raised`; one aborts the script. */
  datatype Result<+T> = Ok(value: T) | Raised
}
