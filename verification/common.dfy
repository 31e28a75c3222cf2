/** Values shared by every part of the client: optional fields, the outcome of a remote call,
    and the JavaScript truthiness rules the components rely on. */
module Common {

  /** A field that may be `undefined` (or `null`) on a JavaScript object. */
  datatype Option<+T> = None | Some(value: T)

  /** What an axios call rejects with, as far as the client reads it: the optional
      `response.data.message` sent by the server. */
  datatype ServerError = ServerError(message: Option<string>)

  /** The settled result of a remote call that returns a value. */
  datatype Reply<+T> = Ok(value: T) | Fail(err: ServerError)

  /** The settled result of a remote call whose value is not used. */
  datatype Outcome = Succeeded | Failed(err: ServerError)

  /** How a UI event handler ends: normally, after raising a browser alert, or by letting
      the rejection escape to its caller. */
  datatype HandlerResult = Completed | Alerted(message: string) | Raised(err: ServerError)

  /** `s` is truthy in JavaScript: present and not the empty string. */
  predicate Truthy(s: Option<string>) {
    s.Some? && s.value != ""
  }

  /** `err?.response?.data?.message || fallback`: the server's message when it sent a
      non-empty one, the fallback otherwise. */
  function MessageOr(err: ServerError, fallback: string): (r: string)
    ensures Truthy(err.message) ==> Some(r) == err.message
    ensures !Truthy(err.message) ==> r == fallback
    ensures fallback != "" ==> r != ""
  {
    if err.message.Some? && err.message.value != "" then err.message.value else fallback
  }
}
