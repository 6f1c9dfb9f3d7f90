/** Values shared by every page and endpoint of the model. */
module Common {

  /** A value that may be absent: JavaScript's `undefined`/`null`, Python's `None`. */
  datatype Option<T> = None | Some(value: T)

  /** A value, or the message of the exception raised instead. */
  datatype Result<T> = Ok(value: T) | Err(message: string)

  /** JavaScript's `v || fallback` on a string that may be absent: an absent
      or empty string is falsy, so the fallback is used in its place. */
  function OrElse(v: Option<string>, fallback: string): (r: string)
    ensures r == fallback || (v == Some(r) && r != "")
    ensures v.Some? && v.value != "" ==> r == v.value
    ensures fallback != "" ==> r != ""
  {
    if v.Some? && v.value != "" then v.value else fallback
  }
}
