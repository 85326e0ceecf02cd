/** The optional value used for every nullable prop and style field. */
module Wrappers {

  /** `None` stands for an unset prop or a `null` style value. */
  datatype Option<+T> = None | Some(value: T) {

    /** The wrapped value, or `default` when there is none. */
    function GetOr(default: T): T {
      match this
      case Some(v) => v
      case None => default
    }
  }
}
