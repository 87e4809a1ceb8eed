/**
 * The user registry and the authentication service: registration with unique emails,
 * password login with one failure message for every cause, and the claims of access tokens.
 * Password hashing and token signing are parameters (`hash`, `verify`, `encode`, `decode`).
 */
module AuthService {
  import opened Wrappers
  import opened JsonData
  import UuidCodec
  import Seqs
  import opened AuthSchema

  /** A row of the `users` table. */
  datatype User = User(id: UuidCodec.Uuid, email: string, name: string, hashedPassword: string, createdAt: string)

  datatype AuthError = AuthenticationError(message: string) | UserAlreadyExists(message: string)

  const InvalidCredentials := "Invalid email or password"

  function AlreadyExistsMessage(email: string): string {
    "User with email " + email + " already exists"
  }

  /** The `unique=True` constraint on `users.email`, and the primary key on `users.id`. */
  predicate UniqueUsers(users: seq<User>) {
    forall i, j | 0 <= i < j < |users| :: users[i].email != users[j].email && users[i].id != users[j].id
  }

  function EmailOf(u: User): string {
    u.email
  }

  /**
   * `get_user_by_email`: the user with that email, if any. The query's `scalar_one_or_none()`
   * would raise on two matches; with emails unique (`UniqueUsers`) at most one row matches, and
   * the first match is that row.
   */
  function UserByEmail(users: seq<User>, email: string): (r: Option<User>)
    ensures r.Some? ==> r.value in users && r.value.email == email
    ensures r.None? <==> forall i | 0 <= i < |users| :: users[i].email != email
    ensures UniqueUsers(users) && r.Some? ==> forall i | 0 <= i < |users| && users[i].email == email :: users[i] == r.value
  {
    Seqs.FirstWith(users, EmailOf, email)
  }

  /** With unique emails, the lookup finds every registered user by its own email. */
  lemma UserByOwnEmail(users: seq<User>, k: nat)
    requires UniqueUsers(users) && k < |users|
    ensures UserByEmail(users, users[k].email) == Some(users[k])
  {
    Seqs.FirstWithOwnKey(users, EmailOf, k);
  }

  /** `authenticate_user`: the user whose email matches and whose stored hash verifies the password. */
  function Authenticate(users: seq<User>, login: UserLogin, verify: (string, string) -> bool): (r: Result<User, AuthError>)
    ensures r.Success? <==> UserByEmail(users, login.email).Some? && verify(login.password, UserByEmail(users, login.email).value.hashedPassword)
    ensures r.Success? ==> r.value in users && r.value.email == login.email
    ensures r.Failure? ==> r.error == AuthenticationError(InvalidCredentials)
  {
    match UserByEmail(users, login.email)
    case None => Failure(AuthenticationError(InvalidCredentials))
    case Some(user) =>
      if verify(login.password, user.hashedPassword) then Success(user)
      else Failure(AuthenticationError(InvalidCredentials))
  }

  /** The registry the service reads and writes. */
  class UserStore {
    var users: seq<User>

    constructor ()
      ensures users == []
    {
      users := [];
    }

    predicate Valid()
      reads this
    {
      UniqueUsers(users)
    }

    /**
     * `register_user`: refuses an email already present; otherwise adds the user with the hash
     * of the password. `id` is the fresh `uuid4` and `createdAt` the clock reading.
     */
    method RegisterUser(data: UserRegister, id: UuidCodec.Uuid, createdAt: string, hash: string -> string) returns (r: Result<User, AuthError>)
      requires Valid()
      requires forall i | 0 <= i < |users| :: users[i].id != id
      modifies this
      ensures Valid()
      ensures UserByEmail(old(users), data.email).Some? ==>
        r == Failure(UserAlreadyExists(AlreadyExistsMessage(data.email))) && users == old(users)
      ensures UserByEmail(old(users), data.email).None? ==>
        r == Success(User(id, data.email, data.name, hash(data.password), createdAt)) && users == old(users) + [r.value]
    {
      if UserByEmail(users, data.email).Some? {
        return Failure(UserAlreadyExists(AlreadyExistsMessage(data.email)));
      }
      var user := User(id, data.email, data.name, hash(data.password), createdAt);
      users := users + [user];
      r := Success(user);
    }
  }

  /** A freshly registered user logs in with the registered password, as far as `verify` accepts its own hashes. */
  lemma RegisteredCanLogIn(users: seq<User>, user: User, password: string, hash: string -> string, verify: (string, string) -> bool)
    requires UniqueUsers(users + [user])
    requires user.hashedPassword == hash(password)
    requires verify(password, hash(password))
    ensures Authenticate(users + [user], UserLogin(user.email, password), verify) == Success(user)
  {
    UserByOwnEmail(users + [user], |users|);
  }

  // ----- access tokens -----

  /**
   * `create_access_token`'s claims: the caller's claims with `exp` added (section 4.1.4 of
   * RFC 7519), `now` plus the given lifetime, or plus the configured minutes when the
   * lifetime is absent or zero. Times are in seconds.
   */
  function Claims(data: map<string, Json>, now: int, expiresDelta: Option<int>, defaultMinutes: int): (c: map<string, Json>)
    ensures c.Keys == data.Keys + {"exp"}
    ensures forall k | k in data && k != "exp" :: c[k] == data[k]
    ensures expiresDelta.Some? && expiresDelta.value != 0 ==> c["exp"] == JNum(now + expiresDelta.value)
    ensures expiresDelta.None? || expiresDelta == Some(0) ==> c["exp"] == JNum(now + defaultMinutes * 60)
  {
    var expire := if expiresDelta.Some? && expiresDelta.value != 0 then now + expiresDelta.value else now + defaultMinutes * 60;
    data["exp" := JNum(expire)]
  }

  /** The signed token; signing is `encode`. */
  function CreateAccessToken(data: map<string, Json>, now: int, expiresDelta: Option<int>, defaultMinutes: int,
                             encode: map<string, Json> -> string): string
  {
    encode(Claims(data, now, expiresDelta, defaultMinutes))
  }

  const InvalidTokenPrefix := "Invalid token: "
  const DecodeErrorPrefix := "Token decode error: "
  const InvalidPayload := "Invalid token payload"
  const BadUuid := "badly formed hexadecimal UUID string"

  /**
   * `UUID(user_id)` when the claim is truthy; `None` when it is absent or falsy. Every text
   * `uuid.UUID` refuses is given the one message `BadUuid`, although 32 characters that are not
   * all hex digits raise `int()`'s "invalid literal" text instead; both end in the same 401.
   */
  function ClaimedUserId(claim: Json): (r: Result<Option<UuidCodec.Uuid>, string>)
    ensures !PyTruthy(claim) ==> r == Success(None)
    ensures claim.JStr? && claim.s != "" ==> (r.Success? <==> UuidCodec.Parse(claim.s).Some?)
    ensures r.Success? && r.value.Some? ==> claim.JStr? && UuidCodec.Parse(claim.s) == r.value
  {
    if !PyTruthy(claim) then Success(None)
    else if claim.JStr? then
      match UuidCodec.Parse(claim.s)
      case None => Failure(BadUuid)
      case Some(u) => Success(Some(u))
    else Failure("'" + PyTypeName(claim) + "' object has no attribute 'replace'")
  }

  /**
   * `decode_token`: a token `decode` rejects, a payload without `sub`, a malformed `user_id`
   * and a non-string `sub` all fail with an InvalidTokenError message.
   */
  function DecodeToken(token: string, decode: string -> Result<map<string, Json>, string>): (r: Result<TokenData, string>)
    ensures decode(token).Failure? ==> r == Failure(InvalidTokenPrefix + decode(token).error)
    ensures decode(token).Success? && r.Failure? ==> DecodeErrorPrefix <= r.error
    ensures decode(token).Success? && PyGet(decode(token).value, "sub") == JNull && ClaimedUserId(PyGet(decode(token).value, "user_id")).Success?
      ==> r == Failure(DecodeErrorPrefix + InvalidPayload)
    ensures r.Success? <==> decode(token).Success? && PyGet(decode(token).value, "sub").JStr?
                            && ClaimedUserId(PyGet(decode(token).value, "user_id")).Success?
    ensures r.Success? ==> r.value == TokenData(Some(PyGet(decode(token).value, "sub").s), ClaimedUserId(PyGet(decode(token).value, "user_id")).value)
  {
    match decode(token)
    case Failure(e) => Failure(InvalidTokenPrefix + e)
    case Success(payload) =>
      var email := PyGet(payload, "sub");
      var userId := ClaimedUserId(PyGet(payload, "user_id"));
      if userId.Failure? then Failure(DecodeErrorPrefix + userId.error)
      else if email == JNull then Failure(DecodeErrorPrefix + InvalidPayload)
      else if !email.JStr? then Failure(DecodeErrorPrefix + "email: Input should be a valid string")
      else Success(TokenData(Some(email.s), userId.value))
  }
}
