/**
 * The browser side of authentication: the access token and the signed-in user kept in
 * `localStorage`, logout, the `useAuth` derivation and the guest fallback of the check call.
 * Storage exists only when there is a `window` (not during server rendering).
 */
module AuthClient {
  import opened Wrappers
  import opened JsonData

  const TokenKey := "resumeMatcher:authToken"
  const UserKey := "resumeMatcher:user"
  const GuestMessage := "Guest"

  /** The user record the backend returns and the browser keeps. */
  datatype StoredUser = StoredUser(id: string, email: string, name: string, createdAt: string)

  /** The body of `/auth/check` as the client reads it. */
  datatype CheckResponse = CheckResponse(authenticated: bool, user: Option<StoredUser>, message: Option<string>)

  /** One `"key":"value"` member of the object text: `prefix` holds the punctuation and key before the opening quote. */
  function Member(prefix: string, value: string, rest: string): string {
    prefix + Escape(value) + "\"" + rest
  }

  /** `JSON.stringify(user)`: the four fields in order, each value written as its quoted literal. */
  function StringifyUser(u: StoredUser): string {
    Member("{\"id\":\"", u.id,
      Member(",\"email\":\"", u.email,
        Member(",\"name\":\"", u.name,
          Member(",\"created_at\":\"", u.createdAt, "}"))))
  }

  /** Reads one member written by `Member`: the value and the text after its closing quote. */
  function ReadMember(t: string, prefix: string): (r: Option<(string, string)>)
    ensures r.Some? ==> prefix <= t
  {
    match Expect(t, prefix)
    case None => None
    case Some(after) => ReadString(after)
  }

  /**
   * `JSON.parse` of a stored user text: the record, or `None` when the text is not an object
   * of that shape.
   */
  function ParseUser(t: string): (r: Option<StoredUser>)
    ensures r.Some? ==> "{\"id\":\"" <= t
  {
    match ReadMember(t, "{\"id\":\"")
    case None => None
    case Some((id, t1)) =>
      match ReadMember(t1, ",\"email\":\"")
      case None => None
      case Some((email, t2)) =>
        match ReadMember(t2, ",\"name\":\"")
        case None => None
        case Some((name, t3)) =>
          match ReadMember(t3, ",\"created_at\":\"")
          case None => None
          case Some((createdAt, t4)) =>
            if t4 == "}" then Some(StoredUser(id, email, name, createdAt)) else None
  }

  lemma ReadMemberOf(prefix: string, value: string, rest: string)
    ensures ReadMember(Member(prefix, value, rest), prefix) == Some((value, rest))
  {
    var t := Member(prefix, value, rest);
    assert t == prefix + (Escape(value) + "\"" + rest);
    assert Expect(t, prefix) == Some(Escape(value) + "\"" + rest);
    EscapeRead(value, rest);
  }

  /** Every user record survives `JSON.stringify` then `JSON.parse`. */
  lemma UserTextRoundTrip(u: StoredUser)
    ensures ParseUser(StringifyUser(u)) == Some(u)
  {
    var t4 := "}";
    var t3 := Member(",\"created_at\":\"", u.createdAt, t4);
    var t2 := Member(",\"name\":\"", u.name, t3);
    var t1 := Member(",\"email\":\"", u.email, t2);
    ReadMemberOf("{\"id\":\"", u.id, t1);
    ReadMemberOf(",\"email\":\"", u.email, t2);
    ReadMemberOf(",\"name\":\"", u.name, t3);
    ReadMemberOf(",\"created_at\":\"", u.createdAt, t4);
  }

  /** A stored user text is never empty, so `getUserInfo` always goes on to parse it. */
  lemma StoredUserTextTruthy(u: StoredUser)
    ensures StringifyUser(u) != ""
    ensures StringifyUser(u)[0] == '{'
  {
  }

  /** The headers of the check call: a bearer header only for a non-empty token. */
  function CheckHeaders(token: Option<string>): (h: map<string, string>)
    ensures "Authorization" in h <==> token.Some? && token.value != ""
    ensures "Authorization" in h ==> h["Authorization"] == "Bearer " + token.value
    ensures h.Keys <= {"Authorization"}
  {
    if token.Some? && token.value != "" then map["Authorization" := "Bearer " + token.value] else map[]
  }

  /**
   * `checkAuth`: a response that is not OK reads as an unauthenticated guest; an OK one is
   * its body (`body`, decoded by the browser).
   */
  function CheckAuth(ok: bool, body: CheckResponse): (r: CheckResponse)
    ensures !ok ==> r == CheckResponse(false, None, Some(GuestMessage))
    ensures ok ==> r == body
    ensures r.authenticated ==> ok
  {
    if !ok then CheckResponse(false, None, Some(GuestMessage)) else body
  }

  /** What the `useAuth` hook reports. */
  datatype AuthView = AuthView(user: Option<StoredUser>, loading: bool, isAuthenticated: bool)

  /** Before its effect has run, the hook reports no user and loading. */
  const InitialView := AuthView(None, true, false)

  /** The browser: whether a `window` exists, and the contents of `localStorage`. */
  class Browser {
    const hasWindow: bool
    var storage: map<string, string>

    constructor (hasWindow: bool, storage: map<string, string>)
      ensures this.hasWindow == hasWindow && this.storage == storage
    {
      this.hasWindow := hasWindow;
      this.storage := storage;
    }

    /** `localStorage.getItem(key)`, or `null` without a window. */
    function Item(key: string): (r: Option<string>)
      reads this
      ensures r.Some? <==> hasWindow && key in storage
      ensures r.Some? ==> r.value == storage[key]
    {
      if hasWindow && key in storage then Some(storage[key]) else None
    }

    function GetAuthToken(): (r: Option<string>)
      reads this
      ensures !hasWindow ==> r.None?
      ensures r.Some? ==> TokenKey in storage && storage[TokenKey] == r.value
    {
      Item(TokenKey)
    }

    /** `getUserInfo`: null without a window, for a missing or empty item, or for text that does not parse. */
    function GetUserInfo(): (r: Option<StoredUser>)
      reads this
      ensures !hasWindow || UserKey !in storage || storage[UserKey] == "" ==> r.None?
      ensures r.Some? ==> ParseUser(storage[UserKey]) == r
    {
      match Item(UserKey)
      case None => None
      case Some(text) => if text == "" then None else ParseUser(text)
    }

    /** `storeAuthToken`: the token under its key, nothing else touched; no-op without a window. */
    method StoreAuthToken(token: string)
      modifies this
      ensures storage == if hasWindow then old(storage)[TokenKey := token] else old(storage)
      ensures hasWindow ==> GetAuthToken() == Some(token)
    {
      if hasWindow {
        storage := storage[TokenKey := token];
      }
    }

    /** `storeUserInfo`: the user's JSON text under its key; reading it back gives the same record. */
    method StoreUserInfo(user: StoredUser)
      modifies this
      ensures storage == if hasWindow then old(storage)[UserKey := StringifyUser(user)] else old(storage)
      ensures hasWindow ==> GetUserInfo() == Some(user)
      ensures !hasWindow ==> GetUserInfo() == None
    {
      if hasWindow {
        storage := storage[UserKey := StringifyUser(user)];
        UserTextRoundTrip(user);
      }
    }

    method RemoveAuthToken()
      modifies this
      ensures storage == if hasWindow then old(storage) - {TokenKey} else old(storage)
    {
      if hasWindow {
        storage := storage - {TokenKey};
      }
    }

    method RemoveUserInfo()
      modifies this
      ensures storage == if hasWindow then old(storage) - {UserKey} else old(storage)
    {
      if hasWindow {
        storage := storage - {UserKey};
      }
    }

    /** `logout`: exactly the token and the user are removed; every other key keeps its value. */
    method Logout()
      modifies this
      ensures hasWindow ==> storage == old(storage) - {TokenKey, UserKey}
      ensures forall k | k in old(storage) && k != TokenKey && k != UserKey :: k in storage && storage[k] == old(storage)[k]
      ensures GetAuthToken().None? && GetUserInfo().None?
    {
      RemoveAuthToken();
      RemoveUserInfo();
    }

    /** The `useAuth` hook once its effect has run: signed in only with both a token and a stored user. */
    function AuthAfterLoad(): (v: AuthView)
      reads this
      ensures !v.loading
      ensures v.isAuthenticated <==> v.user.Some?
      ensures v.isAuthenticated <==> GetAuthToken().Some? && GetAuthToken().value != "" && GetUserInfo().Some?
      ensures v.user.Some? ==> v.user == GetUserInfo()
    {
      var token := GetAuthToken();
      var stored := GetUserInfo();
      if token.Some? && token.value != "" && stored.Some? then AuthView(stored, false, true)
      else AuthView(None, false, false)
    }
  }

  /** With a non-empty token and a stored user text in the browser, the hook reports that user. */
  lemma SignedInView(b: Browser, token: string, user: StoredUser, others: map<string, string>)
    requires b.hasWindow && token != ""
    requires b.storage == others[TokenKey := token][UserKey := StringifyUser(user)]
    ensures b.AuthAfterLoad() == AuthView(Some(user), false, true)
  {
    UserTextRoundTrip(user);
  }
}
