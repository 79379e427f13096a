/**
  The browser's local storage as the client reads it. `JSON.parse` itself is
  not modelled: every stored item carries its raw text together with what
  parsing that text yields, a value or a thrown `SyntaxError`.
*/
module Session {
  import opened Base
  import opened Js

  /** What `JSON.parse` does with a piece of text. */
  datatype Parse = Throws | Parsed(value: Json)

  /** One local-storage entry: the stored text and its parse. */
  datatype Item = Item(raw: string, parse: Parse)

  /** Local storage, keyed by entry name. */
  type Storage = map<string, Item>

  /** Key read by the route guard for the bearer token. */
  const TokenKey := "token"
  /** Key read by the route guard for the signed-in user. */
  const UserKey := "user"
  /** Key read by the HTTP client and the dashboard for the signed-in user and token. */
  const UserInfoKey := "userInfo"

  /** `localStorage.getItem(key)`: `None` stands for the `null` of a missing key. */
  function GetItem(st: Storage, key: string): (r: Option<Item>)
    ensures r.Some? <==> key in st
  {
    if key in st then Some(st[key]) else None
  }

  /**
    `JSON.parse(localStorage.getItem(key))`. A missing key yields `null`, which
    JSON.parse turns into the value `null`.
  */
  function ParseStored(st: Storage, key: string): (r: Parse)
    ensures key !in st ==> r == Parsed(JNull)
    ensures key in st ==> r == st[key].parse
  {
    match GetItem(st, key)
    case None => Parsed(JNull)
    case Some(item) => item.parse
  }
}
