/** The browser's `localStorage`: one string-to-string map, shared by every
    object that holds a reference to it (the API client and the auth
    provider both read and write the same store). */
module Storage {
  import opened Wrappers

  /** The key under which the session token is kept. */
  const AuthTokenKey: string := "auth_token"

  class LocalStorage {
    var items: map<string, string>

    constructor (initial: map<string, string>)
      ensures items == initial
    {
      items := initial;
    }

    /** `getItem(key)`: the stored value, or null when the key is absent. */
    function GetItem(key: string): (r: Option<string>)
      reads this
      ensures r.Some? <==> key in items
      ensures r.Some? ==> r.value == items[key]
    {
      if key in items then Some(items[key]) else None
    }

    /** `setItem(key, value)`: every other key keeps its value. */
    method SetItem(key: string, value: string)
      modifies this
      ensures items == old(items)[key := value]
    {
      items := items[key := value];
    }

    /** `removeItem(key)`: every other key keeps its value; removing an
        absent key changes nothing. */
    method RemoveItem(key: string)
      modifies this
      ensures items == old(items) - {key}
    {
      items := items - {key};
    }
  }
}
