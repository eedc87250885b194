/** The two result shapes shared by every component. */
module Wrappers {

  datatype Option<+T> = None | Some(value: T)

  /** `Fail` stands for the exception the program throws. */
  datatype Result<+T, +E> = Ok(value: T) | Fail(error: E)
}
