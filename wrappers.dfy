/**
  Small value wrappers shared by every module: `Option` for the source's
  nullable references and `Result` for an operation that either finishes
  with a value or raises a .NET exception that some caller further up
  catches.
 */
module Wrappers {

  datatype Option<+T> = None | Some(value: T)

  /** `Thrown` stands for a .NET exception escaping the operation. */
  datatype Result<+T> = Ok(value: T) | Thrown
}
