/** Option and Result values used in place of Java's null and thrown exceptions. */
module Wrappers {

  /** A value that may be absent; `None` stands for a Java `null`. */
  datatype Option<+T> = None | Some(value: T) {

    /** The value held, or `default` when there is none. */
    function GetOr(default: T): T {
      match this
      case Some(v) => v
      case None => default
    }
  }

  /** Either a value or the error a Java method would have thrown. */
  datatype Result<+T, +E> = Success(value: T) | Failure(error: E)
}
