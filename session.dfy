/** The browser's `localStorage` as the pages use it: a map from key to
    string, with the session keys written at login and read by later pages. */
module Session {
  import opened Wrappers

  type Storage = map<string, string>

  const TokenKey: string := "vanguard_token"
  const RoleKey: string := "vanguard_role"
  const UserKey: string := "vanguard_user"
  const EmailKey: string := "vanguard_email"
  const FaceIdKey: string := "vanguard_faceid_enabled"

  /** `localStorage.getItem(key)`; `None` stands for `null`. */
  function GetItem(st: Storage, key: string): (r: Option<string>)
    ensures r.Some? <==> key in st
    ensures r.Some? ==> r.value == st[key]
  {
    if key in st then Some(st[key]) else None
  }

  /** `if (x)` on a nullable string: present and non-empty. */
  predicate Truthy(v: Option<string>): (b: bool)
    ensures b <==> v.GetOr("") != ""
  {
    v.Some? && v.value != ""
  }

  /** The four `setItem` calls of an auto-login: token, role, user name and e-mail. */
  function WriteSession(st: Storage, token: string, role: string, user: string, email: string): (r: Storage)
    ensures r.Keys == st.Keys + {TokenKey, RoleKey, UserKey, EmailKey}
    ensures r[TokenKey] == token && r[RoleKey] == role && r[UserKey] == user && r[EmailKey] == email
    ensures forall k :: k in st && k != TokenKey && k != RoleKey && k != UserKey && k != EmailKey ==> r[k] == st[k]
  {
    st[TokenKey := token][RoleKey := role][UserKey := user][EmailKey := email]
  }

  /** The `Authorization` header of an authenticated request: a missing token
      is rendered by the template literal as the text "null". */
  function BearerHeader(st: Storage): (h: string)
    ensures TokenKey in st ==> h == "Bearer " + st[TokenKey]
    ensures TokenKey !in st ==> h == "Bearer null"
  {
    "Bearer " + GetItem(st, TokenKey).GetOr("null")
  }
}
