/**
 * The authentication slice of the Redux store. Its initial state is read from a
 * snapshot of local storage; its reducers assign fields of the state in place.
 * The sign-up cases answer to an action tag that no thunk in the code base produces.
 */
module AuthSlice {
  import opened Common
  import opened Storage

  /** A signed-in user, identified by the JSON text it is stored as (`JSON.stringify`
      and `JSON.parse` are taken to be inverse). */
  datatype User = User(serialized: string)

  datatype AuthSnapshot = AuthSnapshot(isAuthenticated: bool, user: Option<User>, loading: bool, error: Option<string>)

  const SignUpFailedMessage := "Sign up failed"

  /** `getInitialAuthState`: authenticated exactly when an access token is stored (even an
      empty one); the user is restored from a non-empty `userData` entry. */
  function InitialAuthState(items: map<string, string>): (s: AuthSnapshot)
    ensures s.isAuthenticated <==> AccessTokenKey in items
    ensures s.user.Some? <==> UserDataKey in items && items[UserDataKey] != ""
    ensures s.user.Some? ==> s.user.value == User(items[UserDataKey])
    ensures !s.loading && s.error == None
  {
    var userData := if UserDataKey in items then Some(items[UserDataKey]) else None;
    AuthSnapshot(
      AccessTokenKey in items,
      if Truthy(userData) then Some(User(userData.value)) else None,
      false,
      None)
  }

  /** After the session keys are cleared, a reload starts signed out. */
  lemma ClearedSessionStartsSignedOut(items: map<string, string>)
    ensures var s := InitialAuthState(items - {AccessTokenKey, RefreshTokenKey, UserDataKey});
      !s.isAuthenticated && s.user == None
  {
  }

  class AuthState {
    var isAuthenticated: bool
    var user: Option<User>
    var loading: bool
    var error: Option<string>

    function Snapshot(): AuthSnapshot
      reads this
    {
      AuthSnapshot(isAuthenticated, user, loading, error)
    }

    /** The store's initial state, read from local storage when the store is created. */
    constructor (storage: LocalStorage)
      ensures Snapshot() == InitialAuthState(storage.items)
    {
      var s := InitialAuthState(storage.items);
      isAuthenticated := s.isAuthenticated;
      user := s.user;
      loading := s.loading;
      error := s.error;
    }

    /** `loginSuccess`: `loading` is left as it was. */
    method LoginSuccess(payloadUser: Option<User>)
      modifies this
      ensures isAuthenticated && user == payloadUser && error == None
      ensures loading == old(loading)
    {
      isAuthenticated := true;
      user := payloadUser;
      error := None;
    }

    /** `logout`: `loading` is left as it was. */
    method Logout()
      modifies this
      ensures !isAuthenticated && user == None && error == None
      ensures loading == old(loading)
    {
      isAuthenticated := false;
      user := None;
      error := None;
    }

    /** `clearAuthMessages`: only the error changes. */
    method ClearAuthMessages()
      modifies this
      ensures error == None
      ensures isAuthenticated == old(isAuthenticated) && user == old(user) && loading == old(loading)
    {
      error := None;
    }

    /** `signUpUser.pending` */
    method SignUpPending()
      modifies this
      ensures loading && error == None
      ensures isAuthenticated == old(isAuthenticated) && user == old(user)
    {
      loading := true;
      error := None;
    }

    /** `signUpUser.fulfilled`: the user is `payload.data.user`. */
    method SignUpFulfilled(payloadDataUser: Option<User>)
      modifies this
      ensures !loading && isAuthenticated && user == payloadDataUser && error == None
    {
      loading := false;
      isAuthenticated := true;
      user := payloadDataUser;
      error := None;
    }

    /** `signUpUser.rejected`: not authenticated, the rejection value (or a default) is the
        error, and the user is NOT cleared. */
    method SignUpRejected(payload: Option<string>)
      modifies this
      ensures !loading && !isAuthenticated && error == Some(OrElse(payload, SignUpFailedMessage))
      ensures user == old(user)
    {
      loading := false;
      isAuthenticated := false;
      error := Some(OrElse(payload, SignUpFailedMessage));
    }
  }
}
