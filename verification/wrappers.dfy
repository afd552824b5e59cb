/** The optional-value datatype used throughout the model, in the
    failure-compatible form so that decoders can chain with `:-`. */
module Wrappers {

  /** `None` stands for an absent JSON member (or, for request ids, a JSON `null`). */
  datatype Option<+T> = None | Some(value: T) {

    predicate IsFailure() {
      None?
    }

    function PropagateFailure<U>(): Option<U>
      requires None?
    {
      None
    }

    function Extract(): T
      requires Some?
    {
      value
    }

    /** Python's `d.get(key, default)`: the value if present, else the default. */
    function GetOr(default: T): T {
      match this
      case Some(v) => v
      case None => default
    }
  }
}
