/** Values shared by every asynchronous call of the app: optional values (TypeScript's
    `T | null` and `T | undefined`) and what a `catch` block receives. */
module Outcomes {

  datatype Option<+T> = None | Some(value: T)

  /** Fallback used with JavaScript's `||` when the left operand is `null`/`undefined`. */
  function OrElse<T>(o: Option<T>, default: T): (r: T)
    ensures o.Some? ==> r == o.value
    ensures o.None? ==> r == default
  {
    match o
    case Some(v) => v
    case None => default
  }

  /** A value thrown by an awaited call: either an `Error` object (with its message) or
      anything else (a plain object, a string, ...). */
  datatype Thrown = ErrorInstance(message: string) | NonError

  /** The message the hooks derive from a caught value:
      `err instanceof Error ? err.message : 'An error occurred'`. */
  const GenericErrorMessage: string := "An error occurred"

  function CaughtMessage(t: Thrown): (m: string)
    ensures t.ErrorInstance? ==> m == t.message
    ensures t.NonError? ==> m == GenericErrorMessage
  {
    match t
    case ErrorInstance(msg) => msg
    case NonError => GenericErrorMessage
  }

  /** JavaScript truthiness of an optional string: `undefined`, `null` and `""` are falsy. */
  predicate TruthyString(s: Option<string>)
  {
    s.Some? && s.value != ""
  }

  /** `s || fallback` on an optional string. */
  function StringOr(s: Option<string>, fallback: string): (r: string)
    ensures TruthyString(s) ==> r == s.value
    ensures !TruthyString(s) ==> r == fallback
    ensures fallback != "" ==> r != ""
  {
    if s.Some? && s.value != "" then s.value else fallback
  }
}
