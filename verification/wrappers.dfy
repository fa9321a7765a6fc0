/** Nullable values and thrown-or-returned results, as used by the rest of the model.
    Kotlin's `T?` becomes `Option<T>`; a function annotated `@Throws` becomes one
    returning `Result<T, E>`.
 */
module Wrappers {

  datatype Option<+T> = None | Some(value: T) {

    /** Kotlin's Elvis operator `this ?: default`. */
    function OrElse(default: T): T
    {
      match this
      case Some(v) => v
      case None => default
    }
  }

  datatype Result<+R, +E> = Success(value: R) | Failure(error: E)
}
