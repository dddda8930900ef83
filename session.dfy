/**
 * The browser's two key-value stores as the pages use them: `localStorage`
 * holds the login (user id, profile fields, token, role) and `sessionStorage`
 * the cart count the header shows (and, when present, a user id of its own).
 */
module Session {
  import opened Wrappers

  /** Both stores; every value is a string, as `setItem` stores it. */
  class BrowserStorage {
    var local: map<string, string>
    var session: map<string, string>

    constructor (local: map<string, string>, session: map<string, string>)
      ensures this.local == local && this.session == session
    {
      this.local := local;
      this.session := session;
    }
  }

  /** `getItem(key)`: the stored string, or `null`. */
  function GetItem(m: map<string, string>, key: string): (v: Option<string>)
    ensures v.Some? <==> key in m
    ensures v.Some? ==> v.value == m[key]
  {
    if key in m then Some(m[key]) else None
  }

  /** A value JavaScript treats as true: present and not the empty string. */
  predicate Truthy(v: Option<string>) { v.Some? && v.value != "" }

  /** A stored value as the pages use it after `if (!value)`: `None` when it is missing or empty. */
  function Present(m: map<string, string>, key: string): (v: Option<string>)
    ensures v.Some? <==> key in m && m[key] != ""
    ensures v.Some? ==> v.value == m[key]
  {
    if Truthy(GetItem(m, key)) then GetItem(m, key) else None
  }

  /**
   * `sessionStorage.getItem("userId") || localStorage.getItem("userId")`, as its truth test
   * sees it: the session's id when it is non-empty, otherwise the local one when that is.
   */
  function CurrentUserId(local: map<string, string>, session: map<string, string>): (id: Option<string>)
    ensures Present(session, "userId").Some? ==> id == Present(session, "userId")
    ensures Present(session, "userId").None? ==> id == Present(local, "userId")
  {
    if Present(session, "userId").Some? then Present(session, "userId") else Present(local, "userId")
  }

  /** There is a current user exactly when one of the stores holds a non-empty id. */
  lemma CurrentUserIdIff(local: map<string, string>, session: map<string, string>)
    ensures CurrentUserId(local, session).Some? <==>
              ("userId" in session && session["userId"] != "") || ("userId" in local && local["userId"] != "")
    ensures CurrentUserId(local, session).Some? ==>
              CurrentUserId(local, session).value in {GetItem(session, "userId").GetOr(""), GetItem(local, "userId").GetOr("")}
  {
  }
}
