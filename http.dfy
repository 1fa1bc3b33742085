/**
 * What the views see of a failed API call, and the two rules every view applies to it:
 * `err.response?.data?.msg || fallback` picks the text to show, and a response with
 * status 401 or 422 means the stored credential is no longer accepted.
 */
module Http {
  import opened Wrappers

  const UNAUTHORIZED := 401
  const UNPROCESSABLE_ENTITY := 422

  /** The server's answer to a rejected request: its status and the optional `msg` field of its body. */
  datatype ErrorResponse = ErrorResponse(status: int, msg: Option<string>)

  /** A thrown request error: with a server response, or without one (the request never got an answer). */
  datatype HttpError = HttpError(response: Option<ErrorResponse>)

  /** What an awaited API call yields: the response's `data`, or the error it throws. */
  type Response<T> = Result<T, HttpError>

  /** A possibly-missing JavaScript string is truthy exactly when it is present and non-empty. */
  predicate Truthy(s: Option<string>) {
    s.Some? && s.value != ""
  }

  /** `s || fallback` for a possibly-missing string. */
  function OrElse(s: Option<string>, fallback: string): (r: string)
    ensures Truthy(s) ==> r == s.value
    ensures !Truthy(s) ==> r == fallback
    ensures fallback != "" ==> r != ""
  {
    if Truthy(s) then s.value else fallback
  }

  /** The server's `msg` for a failed call, if it sent one. */
  function ServerMsg(e: HttpError): Option<string> {
    if e.response.Some? then e.response.value.msg else None
  }

  /** `err.response?.data?.msg || fallback`: the message a view shows for a failed call. */
  function MessageOr(e: HttpError, fallback: string): (m: string)
    ensures m == fallback || (e.response.Some? && e.response.value.msg == Some(m) && m != "")
    ensures Truthy(ServerMsg(e)) ==> m == ServerMsg(e).value
    ensures e.response.None? ==> m == fallback
    ensures fallback != "" ==> m != ""
  {
    OrElse(ServerMsg(e), fallback)
  }

  /** `err.response && (err.response.status === 401 || err.response.status === 422)`. */
  function IsAuthFailure(e: HttpError): (b: bool)
    ensures b ==> e.response.Some?
    ensures e.response.Some? ==> (b <==> e.response.value.status in {UNAUTHORIZED, UNPROCESSABLE_ENTITY})
  {
    e.response.Some? && (e.response.value.status == UNAUTHORIZED || e.response.value.status == UNPROCESSABLE_ENTITY)
  }

  /** The text JavaScript's `+` makes of a string field that may be missing (`undefined`). */
  function Concatenable(s: Option<string>): string {
    if s.Some? then s.value else "undefined"
  }
}
