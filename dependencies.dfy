/**
 * The request dependencies that read the bearer token: the current user's id
 * and role, and the role requirement built on them. Each decodes the token as
 * an access token, so refresh tokens are refused.
 */
module Dependencies {
  import opened Wrappers
  import opened AuthModel
  import opened Config
  import opened Security

  const CredentialsError: HttpError := HttpError(Unauthorized, "Could not validate credentials")
  const InsufficientPermissions: HttpError := HttpError(Forbidden, "Insufficient permissions")

  /** `get_current_user_id`: the `sub` of a valid access token. */
  function GetCurrentUserId(token: Jwt, settings: Settings, now: int): (r: Result<string, HttpError>)
    ensures r.Success? <==> DecodeAccessToken(token, settings, now).Success? && "sub" in token.payload
    ensures r.Success? ==> token.payload["sub"] == Str(r.value)
    ensures r.Failure? ==> r.error == CredentialsError
  {
    match DecodeAccessToken(token, settings, now)
    case Failure(_) => Failure(CredentialsError)
    case Success(payload) =>
      match Get(payload, "sub")
      case Some(Str(userId)) => Success(userId)
      case _ => Failure(CredentialsError)
  }

  /** `get_current_user_role`: the `role` of a valid access token, whatever its JSON type, unless absent or null. */
  function GetCurrentUserRole(token: Jwt, settings: Settings, now: int): (r: Result<Value, HttpError>)
    ensures r.Success? <==> DecodeAccessToken(token, settings, now).Success? && "role" in token.payload
                            && token.payload["role"] != Null
    ensures r.Success? ==> token.payload["role"] == r.value
    ensures r.Failure? ==> r.error == CredentialsError
  {
    match DecodeAccessToken(token, settings, now)
    case Failure(_) => Failure(CredentialsError)
    case Success(payload) =>
      match Get(payload, "role")
      case None => Failure(CredentialsError)
      case Some(role) => if role == Null then Failure(CredentialsError) else Success(role)
  }

  /** `require_role(required_role)`'s checker: admins pass, others need the exact role. */
  function RequireRole(requiredRole: string, token: Jwt, settings: Settings, now: int): (r: Result<string, HttpError>)
    ensures r.Success? <==>
              && GetCurrentUserId(token, settings, now).Success? && GetCurrentUserRole(token, settings, now).Success?
              && (GetCurrentUserRole(token, settings, now).value == Str(Admin)
                  || GetCurrentUserRole(token, settings, now).value == Str(requiredRole))
    ensures r.Success? ==> r == GetCurrentUserId(token, settings, now)
    ensures r.Failure? ==> r.error == CredentialsError || r.error == InsufficientPermissions
  {
    match GetCurrentUserId(token, settings, now)
    case Failure(e) => Failure(e)
    case Success(userId) =>
      match GetCurrentUserRole(token, settings, now)
      case Failure(e) => Failure(e)
      case Success(role) =>
        if role == Str(Admin) then Success(userId)
        else if role != Str(requiredRole) then Failure(InsufficientPermissions)
        else Success(userId)
  }

  // ------------------------------------------------------------------ lemmas

  /** A refresh token is refused by every dependency with 401. */
  lemma RefreshTokenRefused(userId: string, requiredRole: string, settings: Settings, issued: int, now: int)
    ensures GetCurrentUserId(CreateRefreshToken(userId, settings, issued), settings, now) == Failure(CredentialsError)
    ensures GetCurrentUserRole(CreateRefreshToken(userId, settings, issued), settings, now) == Failure(CredentialsError)
    ensures RequireRole(requiredRole, CreateRefreshToken(userId, settings, issued), settings, now) == Failure(CredentialsError)
  {
    WrongTypeRejected(map[], None, userId, settings, issued, now);
  }

  /** The token of a login, before it expires: admins pass every requirement, others only their own role, with 403. */
  lemma LoginTokenAuthorizes(userId: string, role: string, requiredRole: string, settings: Settings, issued: int, now: int)
    requires now <= AccessExpiry(None, settings, issued)
    ensures var token := CreateAccessToken(map["sub" := Str(userId), "role" := Str(role)], None, settings, issued);
      && GetCurrentUserId(token, settings, now) == Success(userId)
      && GetCurrentUserRole(token, settings, now) == Success(Str(role))
      && RequireRole(requiredRole, token, settings, now)
         == if role == Admin || role == requiredRole then Success(userId) else Failure(InsufficientPermissions)
  {
    var data := map["sub" := Str(userId), "role" := Str(role)];
    AccessRoundTrip(data, None, settings, issued, now);
  }

  /** Whatever role is required, a valid admin token gives the user id. */
  lemma AdminPassesEverything(token: Jwt, requiredRole: string, settings: Settings, now: int)
    requires GetCurrentUserId(token, settings, now).Success?
    requires GetCurrentUserRole(token, settings, now) == Success(Str(Admin))
    ensures RequireRole(requiredRole, token, settings, now) == GetCurrentUserId(token, settings, now)
  {
  }
}
