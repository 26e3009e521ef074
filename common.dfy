/** Small vocabulary shared by every part of the model. */
module Common {

  datatype Option<T> = None | Some(value: T)

  /** How a JavaScript promise ends: with a value, or rejected with an error message. */
  datatype Settled<T> = Resolved(value: T) | Rejected(message: string)

  /** Client-side routes the pages navigate to. */
  datatype Route = ToBet | ToGame | ToPayout

  /** JavaScript's `s || fallback` on a string: the empty string is falsy. */
  function OrElse(s: string, fallback: string): (r: string)
    // a non-empty string is kept, and only the empty string is replaced
    ensures s != "" ==> r == s
    ensures s == "" ==> r == fallback
  {
    if s == "" then fallback else s
  }

  /** JavaScript truthiness of an optional string field (missing or empty is falsy). */
  predicate Present(s: Option<string>)
  {
    s.Some? && s.value != ""
  }
}
