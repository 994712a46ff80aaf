/**
 * The authentication thunks. `loginUser` checks the email, posts the credentials and,
 * on success, writes the session to local storage and marks the store signed in;
 * `registerUser` checks that every field is filled and posts the registration.
 */
module AuthActions {
  import opened Common
  import opened Storage
  import opened AuthSlice
  import opened Thunks
  import opened LoginForm
  import opened RegisterForm
  import Dates

  const LoginPath := "/auth/login-user"
  const RegisterPath := "/auth/register-user"
  const EmailIdRequired := "Email Id is required."
  const AllFieldsRequired := "All fields are required."
  const UnknownResponseError := "Unknown error"
  const UnknownError := "An unknown error occurred"

  /** `response.data.data` of a login: the user and both tokens. */
  datatype LoginData = LoginData(user: User, accessToken: string, refreshToken: string)

  /** The message both auth thunks reject with from their `catch` block. */
  function AuthErrorMessage(e: Thrown): (m: string)
    ensures ExpiresSession(e) ==> m == SessionExpiredMessage
    ensures HasAxiosResponse(e) && !ExpiresSession(e) && !Truthy(e.response.value.message) ==> m == UnknownResponseError
    ensures !HasAxiosResponse(e) && !e.isErrorInstance ==> m == UnknownError
  {
    CatchMessage(e, UnknownResponseError, UnknownError)
  }

  // ---------------------------------------------------------------- login

  /** The guard of `loginUser`: only the email is checked. */
  function LoginGuard(c: Credentials): (r: Option<string>)
    ensures r.None? <==> c.emailId != ""
    ensures r.Some? ==> r.value == EmailIdRequired
  {
    if c.emailId == "" then Some(EmailIdRequired) else None
  }

  /** What a successful login writes to local storage. */
  function LoginWrites(items: map<string, string>, d: LoginData): (r: map<string, string>)
    ensures r.Keys == items.Keys + {UserDataKey, AccessTokenKey, RefreshTokenKey}
    ensures r[UserDataKey] == d.user.serialized && r[AccessTokenKey] == d.accessToken
    ensures r[RefreshTokenKey] == d.refreshToken
    ensures forall k :: k in items && k !in {UserDataKey, AccessTokenKey, RefreshTokenKey} ==> r[k] == items[k]
  {
    items[UserDataKey := d.user.serialized][AccessTokenKey := d.accessToken][RefreshTokenKey := d.refreshToken]
  }

  /** After a successful login, a reload starts signed in as the same user. */
  lemma LoginSurvivesReload(items: map<string, string>, d: LoginData)
    requires d.user.serialized != ""
    ensures InitialAuthState(LoginWrites(items, d)) == AuthSnapshot(true, Some(d.user), false, None)
  {
  }

  /** A login the form accepts always gets past the thunk's guard. */
  lemma ValidLoginPassesGuard(c: Credentials)
    requires IsValidLogin(c)
    ensures LoginGuard(c) == None
  {
    ValidLoginHasEmail(c);
  }

  /** `loginUser`. The store's own state changes only through `loginSuccess`; the thunk's
      pending/fulfilled/rejected actions have no case in the auth slice. */
  method LoginUser(c: Credentials, reply: ApiReply<LoginData>, storage: LocalStorage, auth: AuthState)
    returns (run: ThunkRun<Credentials, Body<LoginData>>)
    modifies storage, auth
    ensures LoginGuard(c).Some? ==>
              run == ThunkRun(None, Rejected(LoginGuard(c)), false)
              && storage.items == old(storage.items) && auth.Snapshot() == old(auth.Snapshot())
    ensures LoginGuard(c).None? ==> run.sent == Some(Post(LoginPath, c))
    ensures LoginGuard(c).None? && reply.Responded? && reply.body.success ==>
              && run.outcome == Fulfilled(reply.body) && !run.sessionExpired
              && storage.items == LoginWrites(old(storage.items), reply.body.data)
              && auth.Snapshot() == AuthSnapshot(true, Some(reply.body.data.user), old(auth.loading), None)
    ensures LoginGuard(c).None? && reply.Responded? && !reply.body.success ==>
              && run.outcome == Rejected(reply.body.message) && !run.sessionExpired
              && storage.items == old(storage.items) && auth.Snapshot() == old(auth.Snapshot())
    ensures LoginGuard(c).None? && reply.Threw? ==>
              && run.outcome == Rejected(Some(AuthErrorMessage(reply.error)))
              && run.sessionExpired == ExpiresSession(reply.error)
              && storage.items == (if ExpiresSession(reply.error) then ExpireSession(old(storage.items))
                                   else old(storage.items))
              && auth.Snapshot() == old(auth.Snapshot())
  {
    var guard := LoginGuard(c);
    if guard.Some? {
      return ThunkRun(None, Rejected(guard), false);
    }
    var sent := Some(Post(LoginPath, c));
    match reply
    case Responded(body) =>
      if body.success {
        storage.SetItem(UserDataKey, body.data.user.serialized);
        storage.SetItem(AccessTokenKey, body.data.accessToken);
        storage.SetItem(RefreshTokenKey, body.data.refreshToken);
        auth.LoginSuccess(Some(body.data.user));
        run := ThunkRun(sent, Fulfilled(body), false);
      } else {
        run := ThunkRun(sent, Rejected(body.message), false);
      }
    case Threw(e) =>
      if ExpiresSession(e) {
        TokenExpiration(storage);
      }
      run := ThunkRun(sent, Rejected(Some(AuthErrorMessage(e))), ExpiresSession(e));
  }

  // ---------------------------------------------------------------- registration

  /** The guard of `registerUser`: all five fields must be non-empty. */
  function RegisterGuard(r: Registration): (g: Option<string>)
    ensures g.None? <==> r.emailId != "" && r.name != "" && r.dob != "" && r.contactNo != "" && r.password != ""
    ensures g.Some? ==> g.value == AllFieldsRequired
  {
    if r.emailId == "" || r.name == "" || r.dob == "" || r.contactNo == "" || r.password == "" then
      Some(AllFieldsRequired)
    else None
  }

  /** `registerUser`: nothing is stored; the response body is the fulfilled value. */
  function RegisterUser<D>(r: Registration, reply: ApiReply<D>): (run: ThunkRun<Registration, Body<D>>)
    ensures RegisterGuard(r).Some? ==> run == ThunkRun(None, Rejected(Some(AllFieldsRequired)), false)
    ensures RegisterGuard(r).None? ==> run.sent == Some(Post(RegisterPath, r))
    ensures RegisterGuard(r).None? && reply.Responded? ==>
              run.outcome == (if reply.body.success then Fulfilled(reply.body) else Rejected(reply.body.message))
              && !run.sessionExpired
    ensures RegisterGuard(r).None? && reply.Threw? ==>
              run.outcome == Rejected(Some(AuthErrorMessage(reply.error)))
              && run.sessionExpired == ExpiresSession(reply.error)
  {
    var guard := RegisterGuard(r);
    if guard.Some? then ThunkRun(None, Rejected(guard), false)
    else
      var sent := Some(Post(RegisterPath, r));
      match reply
      case Responded(body) =>
        ThunkRun(sent, if body.success then Fulfilled(body) else Rejected(body.message), false)
      case Threw(e) =>
        ThunkRun(sent, Rejected(Some(AuthErrorMessage(e))), ExpiresSession(e))
  }

  /** A registration the form accepts is always sent: the thunk's guard never stops it. */
  lemma ValidRegistrationIsSent<D>(r: Registration, parseDate: string -> Option<Dates.Date>, now: Dates.Instant, reply: ApiReply<D>)
    requires IsValidRegistration(r, parseDate, now)
    ensures RegisterUser(r, reply).sent == Some(Post(RegisterPath, r))
  {
    ValidRegistrationHasAllFields(r, parseDate, now);
  }
}
