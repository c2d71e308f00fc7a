/** The session store: who is signed in, their token, the status of the last login or
    registration request, and the browser storage the token is mirrored into. */
module AuthSlice {
  import opened Common
  import opened UserCodec

  /** The browser's `localStorage`: text values under text keys. */
  class LocalStorage {
    var entries: map<string, string>

    constructor (initial: map<string, string>)
      ensures entries == initial
    {
      entries := initial;
    }

    /** `getItem(key)`; `None` is `null`. */
    function GetItem(key: string): (r: Option<string>)
      reads this
      ensures r.Some? <==> key in entries
      ensures r.Some? ==> r.value == entries[key]
    {
      if key in entries then Some(entries[key]) else None
    }

    method SetItem(key: string, value: string)
      modifies this
      ensures entries == old(entries)[key := value]
    {
      entries := entries[key := value];
    }

    method RemoveItem(key: string)
      modifies this
      ensures entries == old(entries) - {key}
    {
      entries := entries - {key};
    }
  }

  const TokenKey: string := "token"
  const UserKey: string := "user"

  /** `storage.getItem('token') || null`: an empty stored token counts as none. */
  function StoredToken(entries: map<string, string>): (t: Option<string>)
    ensures t.Some? <==> TokenKey in entries && entries[TokenKey] != ""
    ensures t.Some? ==> t.value == entries[TokenKey]
  {
    if TokenKey in entries && entries[TokenKey] != "" then Some(entries[TokenKey]) else None
  }

  datatype RequestStatus = Idle | Loading | Succeeded | Failed

  class AuthState {
    var user: Option<User>
    var token: Option<string>
    var status: RequestStatus
    var error: Option<string>
    const storage: LocalStorage

    /** The token held in the store and the one in browser storage agree whenever either
        is a non-empty string. */
    predicate Synced()
      reads this, storage
    {
      (Truthy(token) || StoredToken(storage.entries).Some?) ==> token == StoredToken(storage.entries)
    }

    /** The initial state: nobody signed in, the stored token if there is one. */
    constructor (s: LocalStorage)
      ensures storage == s && user == None && status == Idle && error == None
      ensures token == StoredToken(s.entries) && Synced()
    {
      storage := s;
      user := None;
      token := StoredToken(s.entries);
      status := Idle;
      error := None;
    }

    /** `logout`: everything back to the signed-out state; the stored token goes too. */
    method Logout()
      modifies this, storage
      ensures user == None && token == None && status == Idle && error == None
      ensures storage.entries == old(storage.entries) - {TokenKey}
      ensures Synced()
    {
      user := None;
      token := None;
      status := Idle;
      error := None;
      storage.RemoveItem(TokenKey);
    }

    /** `setUser`. */
    method SetUser(u: Option<User>)
      modifies this
      ensures user == u && token == old(token) && status == old(status) && error == old(error)
    {
      user := u;
    }

    /** `setToken`: a non-empty token is stored, anything else removes the stored one. */
    method SetToken(t: Option<string>)
      modifies this, storage
      ensures token == t && user == old(user) && status == old(status) && error == old(error)
      ensures Truthy(t) ==> storage.entries == old(storage.entries)[TokenKey := t.value]
      ensures !Truthy(t) ==> storage.entries == old(storage.entries) - {TokenKey}
      ensures Synced()
    {
      token := t;
      if Truthy(t) {
        storage.SetItem(TokenKey, t.value);
      } else {
        storage.RemoveItem(TokenKey);
      }
    }

    /** `login.pending` and `register.pending`. */
    method Pending()
      modifies this
      ensures status == Loading && error == None && user == old(user) && token == old(token)
    {
      status := Loading;
      error := None;
    }

    /** `login.fulfilled` and `register.fulfilled`: the response is the user; a non-empty
        token in it becomes the session token and is stored. */
    method Fulfilled(u: User)
      requires Synced()
      modifies this, storage
      ensures status == Succeeded && user == Some(u) && error == old(error)
      ensures Truthy(u.token) ==> token == u.token && storage.entries == old(storage.entries)[TokenKey := u.token.value]
      ensures !Truthy(u.token) ==> token == old(token) && storage.entries == old(storage.entries)
      ensures Synced()
    {
      status := Succeeded;
      user := Some(u);
      if Truthy(u.token) {
        token := u.token;
        storage.SetItem(TokenKey, u.token.value);
      }
    }

    /** `login.rejected` and `register.rejected`. */
    method Rejected(message: string)
      modifies this
      ensures status == Failed && error == Some(message) && user == old(user) && token == old(token)
    {
      status := Failed;
      error := Some(message);
    }
  }

  /** A failed login after a successful one keeps the session: the user and token stay. */
  method FailedRetryKeepsSession(a: AuthState, u: User, message: string)
    requires a.Synced()
    modifies a, a.storage
    ensures a.user == Some(u) && a.status == Failed && a.error == Some(message)
    ensures Truthy(u.token) ==> a.token == u.token
    ensures a.Synced()
  {
    a.Pending();
    a.Fulfilled(u);
    a.Pending();
    a.Rejected(message);
  }
}
