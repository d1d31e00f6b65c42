/**
 * The browser's `localStorage` as the client uses it: a key-to-value map in which the login screen
 * writes the `user` record and the `token` string, and which every screen reads the identity from.
 */
module Storage {
  import opened Wrappers
  import opened Js

  /**
   * What a key holds: the serialisation of an object (the `user` record), or a plain string. By
   * convention a stored object is always written as `Json`. Under the `user` key, `Text` stands for
   * text on which `JSON.parse` throws, which is how `ReadUser` reads it; a string there that parses to
   * a JSON value other than an object (`"123"`, `"null"`) has no representation here. Under any other
   * key (the token), `Text` is a value that is only ever read back as text, whatever it would parse to.
   */
  datatype Stored = Json(obj: Record) | Text(text: string)

  type Items = map<string, Stored>

  const UserKey := "user"
  const TokenKey := "token"

  /**
   * `JSON.parse(localStorage.getItem('user') || '{}')`: a missing key or an empty string reads as `{}`.
   * `None` is a non-empty string that is not JSON, on which `JSON.parse` throws.
   */
  function ReadUser(items: Items): (u: Option<Record>)
    ensures UserKey !in items ==> u == Some(map[])
    ensures UserKey in items && items[UserKey].Json? ==> u == Some(items[UserKey].obj)
    ensures u.None? <==> UserKey in items && items[UserKey].Text? && items[UserKey].text != ""
  {
    if UserKey !in items then Some(map[])
    else match items[UserKey]
      case Json(obj) => Some(obj)
      case Text(t) => if t == "" then Some(map[]) else None
  }

  /** The storage area itself; `SetItem` and `RemoveItem` are the only writes the client makes. */
  class BrowserStorage {
    var items: Items

    constructor (initial: Items)
      ensures items == initial
    {
      items := initial;
    }

    method SetItem(key: string, value: Stored)
      modifies this
      ensures items == old(items)[key := value]
    {
      items := items[key := value];
    }

    method RemoveItem(key: string)
      modifies this
      ensures items == old(items) - {key}
    {
      items := items - {key};
    }
  }
}
