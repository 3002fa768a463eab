/**
  The browser's localStorage as the pages use it for the session: Login writes
  the 'token' and 'user' keys, Profile reads 'user' and removes both on logout.
 */
module Session {
  import opened Wrappers

  const TokenKey: string := "token"
  const UserKey: string := "user"
  const SessionKeys: set<string> := {TokenKey, UserKey}

  /** `setItem('token', token)` followed by `setItem('user', userJson)`. */
  function WriteSession(items: map<string, string>, token: string, userJson: string): (m: map<string, string>)
    ensures m.Keys == items.Keys + SessionKeys
    ensures m[TokenKey] == token && m[UserKey] == userJson
    ensures forall k :: k in items && k !in SessionKeys ==> m[k] == items[k]
  {
    items[TokenKey := token][UserKey := userJson]
  }

  /** `removeItem('token')` followed by `removeItem('user')`. */
  function ClearSession(items: map<string, string>): (m: map<string, string>)
    ensures m.Keys == items.Keys - SessionKeys
    ensures forall k :: k in m ==> m[k] == items[k]
  {
    items - SessionKeys
  }

  /** `getItem(key)`: None is the null returned for a missing key. */
  function Lookup(items: map<string, string>, key: string): (r: Option<string>)
    ensures r.Some? <==> key in items
    ensures r.Some? ==> r.value == items[key]
  {
    if key in items then Some(items[key]) else None
  }

  /** `getItem('user')`. */
  function StoredUser(items: map<string, string>): Option<string>
  {
    Lookup(items, UserKey)
  }

  /** Logging out removes exactly what logging in wrote: every other key is as it was before login. */
  lemma ClearUndoesWrite(items: map<string, string>, token: string, userJson: string)
    ensures ClearSession(WriteSession(items, token, userJson)) == ClearSession(items)
    ensures forall k :: k in items && k !in SessionKeys ==> k in ClearSession(WriteSession(items, token, userJson))
  {
  }

  /** Save then load: the user written at login is the one read back. */
  lemma StoredUserAfterWrite(items: map<string, string>, token: string, userJson: string)
    ensures StoredUser(WriteSession(items, token, userJson)) == Some(userJson)
  {
  }

  /** Clear then load: no user is left. */
  lemma StoredUserAfterClear(items: map<string, string>)
    ensures StoredUser(ClearSession(items)) == None
  {
  }

  /** The key/value store itself. */
  class BrowserStorage {
    var items: map<string, string>

    constructor (initial: map<string, string>)
      ensures items == initial
    {
      items := initial;
    }

    /** `localStorage.getItem(key)`. */
    function GetItem(key: string): (r: Option<string>)
      reads this
      ensures r.Some? <==> key in items
      ensures r.Some? ==> r.value == items[key]
    {
      Lookup(items, key)
    }

    /** `localStorage.setItem(key, value)`. */
    method SetItem(key: string, value: string)
      modifies this
      ensures items == old(items)[key := value]
    {
      items := items[key := value];
    }

    /** `localStorage.removeItem(key)`; removing a missing key does nothing. */
    method RemoveItem(key: string)
      modifies this
      ensures items == old(items) - {key}
    {
      items := items - {key};
    }
  }
}
