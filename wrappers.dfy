/** Nullable values and thrown-or-returned outcomes.
    Kotlin's `T?` becomes `Option<T>`; a function that either returns a value or
    throws becomes a function or method returning `Result<T, E>`. */
module Wrappers {

  datatype Option<+T> = None | Some(value: T) {

    /** Kotlin's elvis operator `this ?: default`. */
    function GetOr(default: T): T {
      match this
      case Some(v) => v
      case None => default
    }
  }

  datatype Result<+T, +E> = Ok(value: T) | Err(error: E)
}
