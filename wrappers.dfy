/** Java's nullable references and thrown exceptions, as values. */
module Wrappers {

  /** A nullable reference: `None` stands for Java's `null`. */
  datatype Option<+T> = None | Some(value: T) {
    function GetOr(default: T): T {
      match this
      case Some(v) => v
      case None => default
    }
  }

  /** The outcome of a service call: a value, or the exception it throws. */
  datatype Result<+T, +E> = Ok(value: T) | Err(error: E)
}

/** The identifier every Panache entity inherits (`PanacheEntity.id`, a `Long`). */
module Panache {
  type Id = int
}
