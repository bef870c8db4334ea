/** Option and Result values: the source's `null` fields and thrown errors. */
module Wrappers {

  /** A nullable column or an optional argument. */
  datatype Option<T> = None | Some(value: T) {
    function GetOr(default: T): T {
      match this
      case Some(v) => v
      case None => default
    }
  }

  /** The outcome of an operation that either yields a value or throws. */
  datatype Result<T, E> = Ok(value: T) | Err(error: E)
}
