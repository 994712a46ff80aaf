/**
 * What the async thunks have in common: the reply of their one API call, the value
 * a `catch` block receives, the message it derives from it, and the payload they
 * settle with. The thunks send at most one request; its reply is a parameter.
 */
module Thunks {
  import opened Common
  import opened Storage

  /** `error.response`: its status and `response.data.message` (None when absent or null). */
  datatype ErrorResponse = ErrorResponse(status: int, message: Option<string>)

  /** A thrown value: the `isAxiosError` field (None when undefined), the response if any,
      whether it is an `Error` instance, and its `message`. */
  datatype Thrown = Thrown(
    isAxiosError: Option<bool>, response: Option<ErrorResponse>, isErrorInstance: bool, message: string)

  /** `response.data`: the API's envelope. */
  datatype Body<D> = Body(success: bool, message: Option<string>, data: D)

  /** The outcome of the one request a thunk sends. */
  datatype ApiReply<D> = Responded(body: Body<D>) | Threw(error: Thrown)

  /** The request a thunk sends; `B` is the request body. */
  datatype ApiCall<B> = Post(path: string, body: B) | Get(path: string, page: int, limit: int)

  /** How the thunk settles: fulfilled with a value, or `rejectWithValue(payload)`. */
  datatype Outcome<R> = Fulfilled(value: R) | Rejected(payload: Option<string>)

  /** One run of a thunk: the request it sent (None when a guard stopped it), how it settled,
      and whether it called `tokenExpiration`. */
  datatype ThunkRun<B, R> = ThunkRun(sent: Option<ApiCall<B>>, outcome: Outcome<R>, sessionExpired: bool)

  const SessionExpiredMessage := "Session expired"

  /** `isAxiosError(error)`: the field is defined, whatever its value. */
  predicate IsAxiosError(e: Thrown) {
    e.isAxiosError.Some?
  }

  /** The branch of the `catch` block that reads the server's response. */
  predicate HasAxiosResponse(e: Thrown) {
    IsAxiosError(e) && e.response.Some?
  }

  /** The `catch` block calls `tokenExpiration` exactly for a 401 response. */
  predicate ExpiresSession(e: Thrown) {
    HasAxiosResponse(e) && e.response.value.status == 401
  }

  /** The message a `catch` block rejects with. A 401 response gives "Session expired"; another
      response gives its body message, or `responseDefault` when that is absent or empty; a thrown
      value without a response gives its `message` if it is an `Error`, else `otherDefault`. */
  function CatchMessage(e: Thrown, responseDefault: string, otherDefault: string): (m: string)
    ensures ExpiresSession(e) ==> m == SessionExpiredMessage
    ensures HasAxiosResponse(e) && !ExpiresSession(e) ==> m == OrElse(e.response.value.message, responseDefault)
    ensures !HasAxiosResponse(e) && e.isErrorInstance ==> m == e.message
    ensures !HasAxiosResponse(e) && !e.isErrorInstance ==> m == otherDefault
  {
    if HasAxiosResponse(e) then
      if e.response.value.status == 401 then SessionExpiredMessage
      else OrElse(e.response.value.message, responseDefault)
    else if e.isErrorInstance then e.message
    else otherDefault
  }

  /** The response decides the message whenever `isAxiosError` is defined, even as false. */
  lemma AxiosFlagFalseStillReadsResponse(status: int, body: Option<string>, message: string, d: string, d': string)
    requires status != 401
    ensures CatchMessage(Thrown(Some(false), Some(ErrorResponse(status, body)), true, message), d, d')
            == OrElse(body, d)
  {
  }

  /** An axios error without a response (a network failure) is an `Error`: its message is used. */
  lemma NoResponseUsesErrorMessage(message: string, d: string, d': string)
    ensures CatchMessage(Thrown(Some(true), None, true, message), d, d') == message
  {
  }

  /** `tokenExpiration()`: the stored access token is removed when it is non-empty, and the
      browser is sent to the login page (not modelled). */
  function ExpireSession(items: map<string, string>): (r: map<string, string>)
    ensures AccessTokenKey !in r || r[AccessTokenKey] == ""
    ensures AccessTokenKey in items && items[AccessTokenKey] != "" ==> AccessTokenKey !in r
    ensures AccessTokenKey in items && items[AccessTokenKey] == "" ==> r == items
    ensures forall k :: k in items && k != AccessTokenKey ==> k in r && r[k] == items[k]
    ensures forall k :: k in r ==> k in items
  {
    if AccessTokenKey in items && items[AccessTokenKey] != "" then items - {AccessTokenKey} else items
  }

  method TokenExpiration(storage: LocalStorage)
    modifies storage
    ensures storage.items == ExpireSession(old(storage.items))
  {
    if Truthy(storage.GetItem(AccessTokenKey)) {
      storage.RemoveItem(AccessTokenKey);
    }
  }
}
