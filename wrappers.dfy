/** Optional values and results shared by the other modules.
    `Option.None` stands for JavaScript's `undefined` or `null`;
    `Result.Failure` stands for a thrown exception or a rejected promise. */
module Wrappers {

  datatype Option<+T> = None | Some(value: T) {

    /** JavaScript's `this ?? fallback`. */
    function OrElse(fallback: T): T {
      match this
      case Some(v) => v
      case None => fallback
    }
  }

  datatype Result<+R, +E> = Success(value: R) | Failure(error: E)
}
