/** The browser's `localStorage`: a mutable map from keys to strings. */
module Storage {
  import opened Common

  const AccessTokenKey := "accessToken"
  const RefreshTokenKey := "refreshToken"
  const UserDataKey := "userData"

  /** The keys a session writes and `clearTokens` removes; no other key is touched by the session code. */
  const SessionKeys: set<string> := {AccessTokenKey, RefreshTokenKey, UserDataKey}

  class LocalStorage {
    var items: map<string, string>

    constructor (initial: map<string, string>)
      ensures items == initial
    {
      items := initial;
    }

    /** `localStorage.getItem(key)`: the stored string, or null. */
    function GetItem(key: string): (r: Option<string>)
      reads this
      ensures r.Some? <==> key in items
      ensures r.Some? ==> r.value == items[key]
    {
      if key in items then Some(items[key]) else None
    }

    /** `localStorage.setItem(key, value)` */
    method SetItem(key: string, value: string)
      modifies this
      ensures items == old(items)[key := value]
    {
      items := items[key := value];
    }

    /** `localStorage.removeItem(key)`: absent keys are ignored. */
    method RemoveItem(key: string)
      modifies this
      ensures items == old(items) - {key}
    {
      items := items - {key};
    }
  }
}
