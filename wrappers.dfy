/** Optional values and fallible results, used in place of Python's `None`
    and of raised exceptions. */
module Wrappers {

  datatype Option<T> = None | Some(value: T) {
    /** `d.get(key, default)` on a key that may be absent. */
    function GetOr(default: T): T {
      if Some? then value else default
    }
  }

  /** The value, or the message a Python error result would carry. */
  datatype Result<T> = Ok(value: T) | Err(msg: string)

  /** Python truthiness of an optional string: present and non-empty. */
  predicate Truthy(s: Option<string>) {
    s.Some? && s.value != ""
  }
}
