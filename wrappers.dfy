/**
 * Option, Result and the three states a JavaScript property can be in
 * (absent, null, or holding a value).
 */
module Wrappers {

  datatype Option<+T> = None | Some(value: T) {

    /** The value, or `default` when there is none (JavaScript's `x ?? default`). */
    function GetOr(default: T): T {
      match this
      case Some(v) => v
      case None => default
    }
  }

  datatype Result<+T, +E> = Ok(value: T) | Err(error: E)

  /** A property that may be left out (`undefined`), set to `null`, or given. */
  datatype JsField<+T> = Undefined | Null | Given(value: T) {

    function ToOption(): Option<T> {
      match this
      case Given(v) => Some(v)
      case _ => None
    }
  }
}
