/** The optional value used wherever a node property may be absent or, in the
    host's terms, "mixed" (a symbol instead of a value), and the outcome of an
    operation that may throw. */
module Wrappers {
  datatype Option<+T> = None | Some(value: T)

  datatype Result<+T> = Success(value: T) | Failure(error: string)
}
