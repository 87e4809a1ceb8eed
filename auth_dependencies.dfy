/**
 * The two request dependencies that turn an optional bearer credential into the current user:
 * the optional one answers guest (`None`) whenever anything goes wrong, the required one
 * answers 401 with a bearer challenge.
 */
module AuthDependencies {
  import opened Wrappers
  import opened JsonData
  import opened Http
  import opened AuthSchema
  import opened AuthService

  const NotAuthenticated := "Not authenticated"
  const UserNotFound := "User not found"
  const InvalidCredentialsDetail := "Invalid authentication credentials"

  /** `get_current_user_optional`: `credentials` is the bearer token, when the request carries one. */
  function CurrentUserOptional(users: seq<User>, credentials: Option<string>, decode: string -> Result<map<string, Json>, string>)
    : (r: Option<User>)
    ensures credentials.None? ==> r.None?
    ensures credentials.Some? && DecodeToken(credentials.value, decode).Failure? ==> r.None?
    ensures r.Some? ==> r.value in users && Some(r.value.email) == DecodeToken(credentials.value, decode).value.email
  {
    if credentials.None? then None
    else
      match DecodeToken(credentials.value, decode)
      case Failure(_) => None
      case Success(data) => UserByEmail(users, data.email.value)
  }

  /** `get_current_user_required`. */
  function CurrentUserRequired(users: seq<User>, credentials: Option<string>, decode: string -> Result<map<string, Json>, string>)
    : (r: Result<User, HttpError>)
    ensures credentials.None? ==> r == Failure(Challenge(NotAuthenticated))
    ensures credentials.Some? && DecodeToken(credentials.value, decode).Failure? ==> r == Failure(Challenge(InvalidCredentialsDetail))
    ensures r.Failure? ==> r.error.status == Unauthorized && r.error.bearerChallenge
    ensures r.Success? <==> CurrentUserOptional(users, credentials, decode).Some?
    ensures r.Success? ==> CurrentUserOptional(users, credentials, decode) == Some(r.value)
    ensures credentials.Some? && DecodeToken(credentials.value, decode).Success? && r.Failure? ==> r == Failure(Challenge(UserNotFound))
  {
    if credentials.None? then Failure(Challenge(NotAuthenticated))
    else
      match DecodeToken(credentials.value, decode)
      case Failure(_) => Failure(Challenge(InvalidCredentialsDetail))
      case Success(data) =>
        match UserByEmail(users, data.email.value)
        case None => Failure(Challenge(UserNotFound))
        case Some(user) => Success(user)
  }
}
