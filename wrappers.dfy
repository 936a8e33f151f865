/** A value that may be absent: JavaScript's `undefined`/`null` versus a present value. */
module Wrappers {

  datatype Option<+T> = None | Some(value: T) {

    /** The present value, or `default` when absent. */
    function GetOr(default: T): T {
      match this
      case Some(v) => v
      case None => default
    }
  }

  /**
   * `value || fallback` for a value that is a string or missing: the value
   * when it is a non-empty string, the fallback when it is missing or "".
   */
  function TextOr(value: Option<string>, fallback: string): (text: string)
    ensures value.Some? && value.value != "" ==> text == value.value
    ensures value.None? || value.value == "" ==> text == fallback
  {
    if value.Some? && value.value != "" then value.value else fallback
  }
}
