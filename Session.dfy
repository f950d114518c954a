/** The two browser-storage entries that make up a session, shared by the
    header and the bottom menu. */
module Session {
  import opened Wrappers

  /** A stored entry: the JSON text of an object, as `JSON.stringify` writes
      a user, with the fields it holds; or any other text (a token, or a
      user entry that `JSON.parse` rejects). */
  datatype Stored = Object(fields: map<string, string>) | Text(s: string)

  /** The browser's `localStorage`, one object shared by every component
      that reads or writes it. */
  class Store {
    var entries: map<string, Stored>

    constructor(entries: map<string, Stored>)
      ensures this.entries == entries
    {
      this.entries := entries;
    }
  }

  const TokenKey: string := "authToken"
  const UserKey: string := "user"

  /** JavaScript truthiness of `localStorage.getItem(key)`: the entry is
      there and is not the empty string (an object's JSON text never is). */
  predicate Present(storage: map<string, Stored>, key: string) {
    key in storage && (storage[key].Object? || storage[key].s != "")
  }

  /** `!!(token && user)`: both entries are present. */
  predicate HasSession(storage: map<string, Stored>) {
    Present(storage, TokenKey) && Present(storage, UserKey)
  }

  /** Removing both entries ends the session, and touches no other entry. */
  function Cleared(storage: map<string, Stored>): (r: map<string, Stored>)
    ensures !HasSession(r)
    ensures TokenKey !in r && UserKey !in r
    ensures forall k :: k in storage && k != TokenKey && k != UserKey ==> k in r && r[k] == storage[k]
    ensures r.Keys <= storage.Keys
  {
    storage - {TokenKey, UserKey}
  }

  /** `saveAuthData(user, token)`: the token is stored as text and the user
      as the JSON text of the object; no other entry changes. The result
      holds a session exactly when the token is not empty. */
  function Saved(storage: map<string, Stored>, user: map<string, string>, token: string): (r: map<string, Stored>)
    ensures r.Keys == storage.Keys + {TokenKey, UserKey}
    ensures r[TokenKey] == Text(token) && r[UserKey] == Object(user)
    ensures forall k :: k in storage && k != TokenKey && k != UserKey ==> r[k] == storage[k]
    ensures HasSession(r) <==> token != ""
  {
    storage[TokenKey := Text(token)][UserKey := Object(user)]
  }
}
