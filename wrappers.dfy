/** The failure-carrying result type used for the Java exceptions of the core. */
module Wrappers {

  /** `None` stands for a call that ends in an exception; `Some(v)` for a normal return of `v`. */
  datatype Option<+T> = None | Some(value: T) {

    /** The value in `Some`, or `default` for `None`. */
    function GetOr(default: T): T {
      match this
      case Some(v) => v
      case None => default
    }
  }
}
