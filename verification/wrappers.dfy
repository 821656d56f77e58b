/** Optional values: JavaScript's `T | null` and `T | undefined` in the modelled code. */
module Wrappers {

  datatype Option<+T> = None | Some(value: T) {

    /** The value, or `fallback` when there is none. */
    function GetOr(fallback: T): T {
      match this
      case Some(v) => v
      case None => fallback
    }
  }

  /**
   * JavaScript's `message || fallback` for an optional string: both `undefined`
   * and the empty string are falsy, so both give the fallback.
   */
  function StringOr(message: Option<string>, fallback: string): (r: string)
    ensures message.Some? && message.value != "" ==> r == message.value
    ensures message.None? || message.value == "" ==> r == fallback
  {
    if message.Some? && message.value != "" then message.value else fallback
  }

  /** JavaScript truthiness of a `string | null` value. */
  predicate Truthy(s: Option<string>) {
    s.Some? && s.value != ""
  }
}
