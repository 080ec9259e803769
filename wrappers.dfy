/** Small value wrappers shared by the pipeline. */
module Wrappers {

  /** A possibly absent value: JavaScript's `undefined` for an optional field. */
  datatype Option<+T> = None | Some(value: T) {

    /** The value, or `default` when it is absent. */
    function GetOr(default: T): T {
      match this
      case Some(v) => v
      case None => default
    }
  }
}
