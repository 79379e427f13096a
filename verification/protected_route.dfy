/**
  The route guard: render the protected page, or redirect to the login view,
  decided from the stored `token` and `user` entries. The guard reads the
  keys `token` and `user`, not the `userInfo` entry the HTTP client reads.
*/
module ProtectedRoute {
  import opened Base
  import opened Js
  import opened Session

  const LoginPath := "/login"

  /** What the guard renders. `RenderError` is the exception `JSON.parse` throws while rendering. */
  datatype View = Redirect(to: string, replace: bool) | Children | RenderError

  /** `localStorage.getItem('token')` is truthy: present and not the empty string. */
  predicate TokenStored(st: Storage) {
    TokenKey in st && st[TokenKey].raw != ""
  }

  /**
    `JSON.parse(localStorage.getItem('user') || 'null')`: a missing or empty
    entry falls back to the text `null`.
  */
  function StoredUser(st: Storage): (r: Parse)
    ensures UserKey !in st || st[UserKey].raw == "" ==> r == Parsed(JNull)
    ensures UserKey in st && st[UserKey].raw != "" ==> r == st[UserKey].parse
  {
    match GetItem(st, UserKey)
    case None => Parsed(JNull)
    case Some(item) => if item.raw == "" then Parsed(JNull) else item.parse
  }

  /** The stored session the guard accepts: a non-empty token and a user that parses to a truthy value. */
  predicate SignedIn(st: Storage) {
    TokenStored(st) && StoredUser(st).Parsed? && Truthy(StoredUser(st).value)
  }

  function Guard(st: Storage): (v: View)
    ensures v.RenderError? <==> StoredUser(st).Throws?
    ensures v.Children? <==> SignedIn(st)
    ensures v.Redirect? ==> v == Redirect(LoginPath, true)
    ensures v.Redirect? <==> StoredUser(st).Parsed? && !SignedIn(st)
  {
    match StoredUser(st)
    case Throws => RenderError
    case Parsed(user) =>
      if !TokenStored(st) || !Truthy(user) then Redirect(LoginPath, true) else Children
  }

  /** No stored token: redirect, unless the user entry is malformed. */
  lemma NoTokenRedirects(st: Storage)
    requires !TokenStored(st) && StoredUser(st).Parsed?
    ensures Guard(st) == Redirect(LoginPath, true)
  {
  }

  /** Entries other than `token` and `user` never change what the guard decides. */
  lemma GuardReadsOnlyTokenAndUser(a: Storage, b: Storage)
    requires TokenKey in a <==> TokenKey in b
    requires TokenKey in a ==> a[TokenKey] == b[TokenKey]
    requires UserKey in a <==> UserKey in b
    requires UserKey in a ==> a[UserKey] == b[UserKey]
    ensures Guard(a) == Guard(b)
  {
    assert GetItem(a, UserKey) == GetItem(b, UserKey);
  }

  /** A non-empty token together with a stored user object lets the page render. */
  lemma StoredSessionRenders(st: Storage)
    requires TokenKey in st && st[TokenKey].raw != ""
    requires UserKey in st && st[UserKey].raw != ""
    requires st[UserKey].parse.Parsed? && st[UserKey].parse.value.JObj?
    ensures Guard(st) == Children
  {
  }

  /** No stored user, or one that parses to `null` or another falsy value: redirect. */
  lemma NoUserRedirects(st: Storage)
    requires UserKey !in st || st[UserKey].raw == "" || (st[UserKey].parse.Parsed? && !Truthy(st[UserKey].parse.value))
    ensures Guard(st) == Redirect(LoginPath, true)
  {
  }
}
