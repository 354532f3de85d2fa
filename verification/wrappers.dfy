/** Small value helpers shared by the reply service and the plugin: an optional
    value, and Python's truthiness test for an optional string. */
module Wrappers {

  /** A value that may be absent (Python's `None`). */
  datatype Option<+T> = None | Some(value: T) {

    /** The carried value, or `default` when absent. */
    function GetOr(default: T): T {
      match this
      case Some(v) => v
      case None => default
    }
  }

  /** Python truthiness of `Optional[str]`: neither `None` nor the empty string. */
  predicate NonEmpty(s: Option<string>) {
    s.Some? && s.value != ""
  }
}
