/** Small value types shared by every part of the client model, and the
    JavaScript truthiness rules the client's code relies on. */
module Values {

  /** A value that may be absent (`null` or `undefined` in the client). */
  datatype Option<+T> = None | Some(value: T)

  /** The outcome of an operation that can fail with a message. */
  datatype Result<+T> = Success(value: T) | Failure(message: string)

  /** JavaScript truthiness of a string-or-absent value: absent and the empty
      string are both falsy. */
  predicate Present(s: Option<string>)
  {
    s.Some? && s.value != ""
  }

  /** `a || fallback` for a string-or-absent `a`. */
  function OrElse(a: Option<string>, fallback: string): string
  {
    if Present(a) then a.value else fallback
  }

  /** `a || undefined` for a string-or-absent `a`. */
  function OrNone(a: Option<string>): Option<string>
  {
    if Present(a) then a else None
  }

  /** The first truthy string of `a || b || fallback`. */
  function FirstPresent(a: Option<string>, b: Option<string>, fallback: string): (r: string)
    ensures fallback != "" ==> r != ""
    ensures Present(a) ==> r == a.value
    ensures !Present(a) && Present(b) ==> r == b.value
    ensures !Present(a) && !Present(b) ==> r == fallback
  {
    OrElse(a, OrElse(b, fallback))
  }
}
