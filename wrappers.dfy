/** Option, Result and Outcome: the shapes of Rust's `Option<T>`, `Result<T, E>`
    and `Result<(), E>` as they are used by the authorization core. */
module Wrappers {

  datatype Option<+T> = None | Some(value: T) {
    /** `Option::unwrap_or` */
    function UnwrapOr(default: T): (r: T)
      ensures Some? ==> r == value
      ensures None? ==> r == default
    {
      match this
      case Some(v) => v
      case None => default
    }
  }

  datatype Result<+T, +E> = Success(value: T) | Failure(error: E)

  /** `Result<(), E>`: success carries nothing. */
  datatype Outcome<+E> = Pass | Fail(error: E)
}
