/** Small failure-carrying types shared by the whole model. */
module Wrappers {

  /** A value that may be absent: a missing field, Python's `None`, a lookup that found nothing. */
  datatype Option<+T> = None | Some(value: T)

  /** What a call that may raise gives back. */
  datatype Outcome<+T, +E> = Ok(value: T) | Raised(error: E)
}
