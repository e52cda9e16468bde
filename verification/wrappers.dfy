/** The optional-value datatype shared by every module of the model.
    Python's `None` and "the call raised" are both represented by `None`
    wherever the source turns an exception into a missing result. */
module Wrappers {

  datatype Option<+T> = None | Some(value: T) {

    /** Returns the wrapped value, or `default` when there is none. */
    function GetOr(default: T): T {
      match this
      case Some(v) => v
      case None => default
    }
  }
}
