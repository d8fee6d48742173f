/**
 * Java object references that may be `null`.
 *
 * Every field or argument of the app that the code tests against `null`
 * (or that a database column may leave NULL) is an `Option` in this model.
 */
module Nullable {

  datatype Option<+T> = None | Some(value: T) {

    /** The value, or `default` for `null`. */
    function GetOr(default: T): T {
      match this
      case Some(v) => v
      case None => default
    }
  }
}
