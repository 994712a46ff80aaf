/** Value shapes shared by every part of the model. */
module Common {

  /** A JavaScript value that may be `null` or `undefined` (None). */
  datatype Option<+T> = None | Some(value: T)

  /** A computation that either yields a value or throws an error carrying a message. */
  datatype Result<+T> = Ok(value: T) | Err(error: string)

  /** JavaScript truthiness of an optional string: absent and "" are both falsy. */
  predicate Truthy(s: Option<string>) {
    s.Some? && s.value != ""
  }

  /** `a || b` for an optional string and a string fallback. */
  function OrElse(s: Option<string>, fallback: string): (r: string)
    ensures Truthy(s) ==> r == s.value
    ensures !Truthy(s) ==> r == fallback
  {
    if Truthy(s) then s.value else fallback
  }
}
