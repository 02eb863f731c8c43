/** The two stock result shapes the other modules share. */
module Options {

  /** A Go pointer: nil, or a pointer to a value. */
  datatype Option<+T> = None | Some(value: T)

  /** A Go (value, error) pair of which exactly one half is meaningful. */
  datatype Result<+T, +E> = Ok(value: T) | Failure(error: E)
}
