/**
 * The authentication endpoints: register (201), login, who-am-I and the guest-aware check,
 * with the exceptions each maps to an HTTP status.
 */
module AuthRouter {
  import opened Wrappers
  import opened JsonData
  import UuidCodec
  import opened Http
  import opened AuthSchema
  import opened AuthService
  import opened AuthDependencies

  const Created := 201
  const GuestMessage := "Using as guest"

  /** `UserResponse.from_orm`. */
  function ResponseOf(user: User): (r: UserResponse)
    ensures r.id == user.id && r.email == user.email && r.name == user.name
  {
    UserResponse(user.id, user.email, user.name, user.createdAt)
  }

  /** The claims the routers sign: the email as subject and the id in its hyphenated text form. */
  function IssuedClaims(user: User): map<string, Json> {
    map["sub" := JStr(user.email), "user_id" := JStr(UuidCodec.Canonical(user.id))]
  }

  /** The token issued to `user` with the configured lifetime. */
  function IssuedToken(user: User, now: int, defaultMinutes: int, encode: map<string, Json> -> string): string {
    CreateAccessToken(IssuedClaims(user), now, None, defaultMinutes, encode)
  }

  /**
   * `register`: 201 with the user and a bearer token; a taken email answers 400 with the
   * service's message and leaves the registry unchanged.
   */
  method Register(store: UserStore, data: UserRegister, id: UuidCodec.Uuid, createdAt: string, hash: string -> string,
                  now: int, defaultMinutes: int, encode: map<string, Json> -> string)
    returns (r: Result<(int, UserWithToken), HttpError>)
    requires store.Valid()
    requires forall i | 0 <= i < |store.users| :: store.users[i].id != id
    modifies store
    ensures store.Valid()
    ensures UserByEmail(old(store.users), data.email).Some? ==>
      r == Failure(Plain(BadRequest, AlreadyExistsMessage(data.email))) && store.users == old(store.users)
    ensures UserByEmail(old(store.users), data.email).None? ==>
      var user := User(id, data.email, data.name, hash(data.password), createdAt);
      store.users == old(store.users) + [user]
      && r == Success((Created, UserWithToken(ResponseOf(user), IssuedToken(user, now, defaultMinutes, encode), Bearer)))
  {
    var registered := store.RegisterUser(data, id, createdAt, hash);
    match registered {
      case Failure(e) =>
        return Failure(Plain(BadRequest, e.message));
      case Success(user) =>
        var token := CreateAccessToken(IssuedClaims(user), now, None, defaultMinutes, encode);
        return Success((Created, UserWithToken(ResponseOf(user), token, Bearer)));
    }
  }

  /** `login`: the user and a bearer token, or 401 with a bearer challenge and the uniform message. */
  function Login(users: seq<User>, login: UserLogin, verify: (string, string) -> bool,
                 now: int, defaultMinutes: int, encode: map<string, Json> -> string)
    : (r: Result<UserWithToken, HttpError>)
    ensures r.Failure? ==> r.error == Challenge(InvalidCredentials)
    ensures r.Success? <==> Authenticate(users, login, verify).Success?
    ensures r.Success? ==> r.value.user.email == login.email && r.value.tokenType == Bearer
  {
    match Authenticate(users, login, verify)
    case Failure(e) => Failure(Challenge(e.message))
    case Success(user) => Success(UserWithToken(ResponseOf(user), IssuedToken(user, now, defaultMinutes, encode), Bearer))
  }

  /** `get_current_user`: the required dependency's user, or its 401. */
  function Me(current: Result<User, HttpError>): (r: Result<UserResponse, HttpError>)
    ensures r.Success? <==> current.Success?
    ensures r.Success? ==> r.value.id == current.value.id
    ensures r.Failure? ==> r.error == current.error
  {
    match current
    case Success(user) => Success(ResponseOf(user))
    case Failure(e) => Failure(e)
  }

  /** `check_auth`: authenticated with the user when the optional dependency finds one, otherwise guest. */
  function CheckAuth(current: Option<User>): (r: AuthCheckResponse)
    ensures r.authenticated <==> current.Some?
    ensures r.authenticated ==> r.user == Some(ResponseOf(current.value)) && r.message.None?
    ensures !r.authenticated ==> r.user.None? && r.message == Some(GuestMessage)
  {
    if current.Some? then AuthCheckResponse(true, Some(ResponseOf(current.value)), None)
    else AuthCheckResponse(false, None, Some(GuestMessage))
  }

  /**
   * A token the routers issue decodes, under a `decode` that inverts `encode`, to the user's
   * email and id: the hyphenated id text parses back to the id.
   */
  lemma IssuedTokenDecodes(user: User, now: int, defaultMinutes: int,
                           encode: map<string, Json> -> string, decode: string -> Result<map<string, Json>, string>)
    requires var c := Claims(IssuedClaims(user), now, None, defaultMinutes); decode(encode(c)) == Success(c)
    ensures DecodeToken(IssuedToken(user, now, defaultMinutes, encode), decode) == Success(TokenData(Some(user.email), Some(user.id)))
  {
    var token := IssuedToken(user, now, defaultMinutes, encode);
    assert token == encode(Claims(IssuedClaims(user), now, None, defaultMinutes));
    IssuedClaimsRead(user, now, defaultMinutes);
    ClaimedCanonical(user.id);
  }

  /** The issued claims carry the email as `sub` and the canonical id as `user_id`. */
  lemma IssuedClaimsRead(user: User, now: int, defaultMinutes: int)
    ensures var c := Claims(IssuedClaims(user), now, None, defaultMinutes);
      PyGet(c, "sub") == JStr(user.email) && PyGet(c, "user_id") == JStr(UuidCodec.Canonical(user.id))
  {
    var d := IssuedClaims(user);
    assert "sub" in d && "user_id" in d;
  }

  /** A `user_id` claim holding a canonical UUID text is read as that UUID. */
  lemma ClaimedCanonical(u: UuidCodec.Uuid)
    ensures ClaimedUserId(JStr(UuidCodec.Canonical(u))) == Success(Some(u))
  {
    UuidCodec.ParseCanonical(u);
  }

  /** Presenting the issued token makes both dependencies find the registered user. */
  lemma IssuedTokenAuthenticates(users: seq<User>, k: nat, now: int, defaultMinutes: int,
                                 encode: map<string, Json> -> string, decode: string -> Result<map<string, Json>, string>)
    requires UniqueUsers(users) && k < |users|
    requires var c := Claims(IssuedClaims(users[k]), now, None, defaultMinutes); decode(encode(c)) == Success(c)
    ensures var token := Some(IssuedToken(users[k], now, defaultMinutes, encode));
      CurrentUserRequired(users, token, decode) == Success(users[k])
      && CurrentUserOptional(users, token, decode) == Some(users[k])
      && CheckAuth(CurrentUserOptional(users, token, decode)).authenticated
  {
    IssuedTokenDecodes(users[k], now, defaultMinutes, encode, decode);
    UserByOwnEmail(users, k);
  }
}
