/** Values shared by the modules of this model: an optional value standing for a
    JavaScript property that may be `undefined`, and the value a `throw` carries. */
module Common {

  datatype Option<+T> = None | Some(value: T)

  /** What a JavaScript `throw` carries: an `Error` object with its message, or
      any other value (for which callers fall back to a fixed text). */
  datatype Thrown = ErrorObject(message: string) | NonErrorValue

  /** One problem a zod schema reports: the path of the offending field and the
      rule's message. */
  datatype Issue = Issue(path: seq<string>, message: string)

  /** JavaScript truthiness of an optional string: `undefined` and `""` are falsy. */
  predicate Truthy(s: Option<string>) {
    s.Some? && s.value != ""
  }

  /** The message a `catch` block shows: `error instanceof Error ? error.message : fallback`. */
  function MessageOr(t: Thrown, fallback: string): (m: string)
    ensures t.ErrorObject? ==> m == t.message
    ensures t.NonErrorValue? ==> m == fallback
  {
    match t
    case ErrorObject(msg) => msg
    case NonErrorValue => fallback
  }
}
