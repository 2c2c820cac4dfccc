/** Option and Result values, shared by every module. */
module Wrappers {
  datatype Option<+T> = None | Some(value: T)

  /** The error kinds that the program distinguishes. */
  datatype ErrorKind = InvalidData | NotFound | Other

  datatype Result<+T> = Ok(value: T) | Err(error: ErrorKind)
}
