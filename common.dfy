/** Shared value types of the document generator model. */
module Common {

  /** A present-or-absent value. */
  datatype Option<T> = None | Some(value: T)

  /** The outcome of an operation that may throw: the value, or the thrown error's message. */
  datatype Result<T> = Ok(value: T) | Err(message: string)

  /** An octet. */
  type byte = x: int | 0 <= x < 256

  /** A field of a parsed JSON request body: absent (`undefined`), `null`, or a string. */
  datatype JsonField = Undefined | Null | Str(s: string)

  /** JavaScript truthiness of a request field: only a non-empty string is truthy. */
  predicate Truthy(f: JsonField)
  {
    f.Str? && f.s != ""
  }

  /** JavaScript truthiness of an environment variable (`undefined` or a string). */
  predicate Set(v: Option<string>)
  {
    v.Some? && v.value != ""
  }

  /** `v || fallback` for an environment variable. */
  function OrDefault(v: Option<string>, fallback: string): (r: string)
    ensures Set(v) ==> r == v.value
    ensures !Set(v) ==> r == fallback
  {
    if Set(v) then v.value else fallback
  }
}
