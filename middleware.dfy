/**
 * The identity-provider middleware: the token verification dependency, which
 * maps the verifier's outcome to an authenticated user or an HTTP error, and
 * the role and tenant checkers layered on it. The identity provider's
 * `verify_id_token` is a parameter.
 */
module Middleware {
  import opened Wrappers
  import opened Text
  import opened AuthModel

  /** `AuthUser`: the user and claims taken from a verified ID token. */
  datatype AuthUser = AuthUser(
    uid: string,
    email: Option<string> := None,
    emailVerified: bool := false,
    name: Option<string> := None,
    picture: Option<string> := None,
    phoneNumber: Option<string> := None,
    role: Option<string> := None,
    tenantId: Option<string> := None,
    customClaims: map<string, Value> := map[],
    issuedAt: Option<int> := None,
    expiresAt: Option<int> := None,
    authTime: Option<int> := None)

  /** What `verify_id_token` does with a token: the decoded claims, or one of the errors it raises. */
  datatype Verification = Verified(claims: map<string, Value>) | ExpiredToken | RevokedToken | InvalidToken | OtherError

  /** The claims that have their own `AuthUser` field and so are not custom claims. */
  const Reserved: set<string> := {"uid", "email", "email_verified", "name", "picture", "phone_number",
                                   "role", "tenant_id", "iat", "exp", "auth_time"}

  const MissingCredentials: HttpError := HttpError(Unauthorized, "Missing authentication credentials")
  const Expired: HttpError := HttpError(Unauthorized, "Token has expired. Please refresh your token.")
  const Revoked: HttpError := HttpError(Unauthorized, "Token has been revoked")
  const Invalid: HttpError := HttpError(Unauthorized, "Invalid authentication token")
  const ServiceError: HttpError := HttpError(InternalServerError, "Authentication service error")

  /** The custom claims: every decoded claim whose key is not reserved. */
  function CustomClaims(decoded: map<string, Value>): map<string, Value> {
    map k | k in decoded && k !in Reserved :: decoded[k]
  }

  /** An `Optional[str]` field: absent or null is `None`; a string is kept. */
  predicate IsOptionalString(d: map<string, Value>, key: string) {
    key !in d || d[key].Null? || d[key].Str?
  }

  /** An `Optional[datetime]` field given as a timestamp. */
  predicate IsOptionalTime(d: map<string, Value>, key: string) {
    key !in d || d[key].Null? || d[key].Int?
  }

  function OptionalString(d: map<string, Value>, key: string): Option<string> {
    if key in d && d[key].Str? then Some(d[key].s) else None
  }

  function OptionalTime(d: map<string, Value>, key: string): Option<int> {
    if key in d && d[key].Int? then Some(d[key].i) else None
  }

  /** The decoded claims pass the `AuthUser` field validation: a string uid and well-typed optional fields. */
  predicate Validates(d: map<string, Value>) {
    && "uid" in d && d["uid"].Str?
    && IsOptionalString(d, "email") && IsOptionalString(d, "name") && IsOptionalString(d, "picture")
    && IsOptionalString(d, "phone_number") && IsOptionalString(d, "role") && IsOptionalString(d, "tenant_id")
    && ("email_verified" !in d || d["email_verified"].Bool?)
    && IsOptionalTime(d, "iat") && IsOptionalTime(d, "exp") && IsOptionalTime(d, "auth_time")
  }

  /** The `AuthUser` built from validated claims; `email_verified` defaults to false. */
  function ToAuthUser(d: map<string, Value>): AuthUser
    requires Validates(d)
  {
    AuthUser(
      uid := d["uid"].s,
      email := OptionalString(d, "email"),
      emailVerified := "email_verified" in d && d["email_verified"].b,
      name := OptionalString(d, "name"),
      picture := OptionalString(d, "picture"),
      phoneNumber := OptionalString(d, "phone_number"),
      role := OptionalString(d, "role"),
      tenantId := OptionalString(d, "tenant_id"),
      customClaims := CustomClaims(d),
      issuedAt := OptionalTime(d, "iat"),
      expiresAt := OptionalTime(d, "exp"),
      authTime := OptionalTime(d, "auth_time"))
  }

  /**
   * `verify_firebase_token`: missing credentials are refused before the
   * verifier is consulted; the verifier's errors map to their own responses,
   * and a failure to build the user counts as an unexpected error.
   */
  function VerifyFirebaseToken(credentials: Option<string>, verify: string -> Verification): (r: Result<AuthUser, HttpError>)
    ensures credentials.None? ==> r == Failure(MissingCredentials)
    ensures r.Success? <==> credentials.Some? && verify(credentials.value).Verified?
                            && Validates(verify(credentials.value).claims)
    ensures r.Success? ==>
      var d := verify(credentials.value).claims;
      && r.value.uid == d["uid"].s && r.value.role == OptionalString(d, "role")
      && r.value.tenantId == OptionalString(d, "tenant_id")
      && r.value.emailVerified == ("email_verified" in d && d["email_verified"] == Bool(true))
      && r.value.customClaims == CustomClaims(d)
    ensures credentials.Some? && verify(credentials.value).ExpiredToken? ==> r == Failure(Expired)
    ensures credentials.Some? && verify(credentials.value).RevokedToken? ==> r == Failure(Revoked)
    ensures credentials.Some? && verify(credentials.value).InvalidToken? ==> r == Failure(Invalid)
    ensures r.Failure? ==> r.error.status == Unauthorized || r.error.status == InternalServerError
    ensures r.Failure? && r.error.status == InternalServerError <==>
      credentials.Some? && (verify(credentials.value).OtherError?
        || (verify(credentials.value).Verified? && !Validates(verify(credentials.value).claims)))
  {
    if credentials.None? then Failure(MissingCredentials)
    else
      match verify(credentials.value)
      case Verified(d) => if Validates(d) then Success(ToAuthUser(d)) else Failure(ServiceError)
      case ExpiredToken => Failure(Expired)
      case RevokedToken => Failure(Revoked)
      case InvalidToken => Failure(Invalid)
      case OtherError => Failure(ServiceError)
  }

  /** `require_role(required_role)`'s checker. */
  function RequireRole(requiredRole: string, user: AuthUser): (r: Result<AuthUser, HttpError>)
    ensures r.Success? <==> user.role == Some(requiredRole) || user.role == Some(Admin)
    ensures r.Success? ==> r.value == user
    ensures r.Failure? ==> r.error == HttpError(Forbidden, "Insufficient permissions. Required role: " + requiredRole)
  {
    if user.role != Some(requiredRole) && user.role != Some(Admin) then
      Failure(HttpError(Forbidden, "Insufficient permissions. Required role: " + requiredRole))
    else Success(user)
  }

  /** `require_any_role(*roles)`'s checker. */
  function RequireAnyRole(roles: seq<string>, user: AuthUser): (r: Result<AuthUser, HttpError>)
    ensures r.Success? <==> (user.role.Some? && user.role.value in roles) || user.role == Some(Admin)
    ensures r.Success? ==> r.value == user
    ensures r.Failure? ==> r.error == HttpError(Forbidden, "Insufficient permissions. Required roles: " + Join(roles, ", "))
  {
    if !(user.role.Some? && user.role.value in roles) && user.role != Some(Admin) then
      Failure(HttpError(Forbidden, "Insufficient permissions. Required roles: " + Join(roles, ", ")))
    else Success(user)
  }

  /** `require_tenant(tenant_id)`'s checker. */
  function RequireTenant(tenantId: string, user: AuthUser): (r: Result<AuthUser, HttpError>)
    ensures r.Success? <==> user.tenantId == Some(tenantId) || user.role == Some(Admin)
    ensures r.Success? ==> r.value == user
    ensures r.Failure? ==> r.error == HttpError(Forbidden, "Access denied. User does not belong to tenant: " + tenantId)
  {
    if user.tenantId != Some(tenantId) && user.role != Some(Admin) then
      Failure(HttpError(Forbidden, "Access denied. User does not belong to tenant: " + tenantId))
    else Success(user)
  }

  /** A checker resolved with its dependency: the token is verified first, then the user is checked. */
  function Guarded(credentials: Option<string>, verify: string -> Verification,
                   check: AuthUser -> Result<AuthUser, HttpError>): Result<AuthUser, HttpError> {
    match VerifyFirebaseToken(credentials, verify)
    case Failure(e) => Failure(e)
    case Success(user) => check(user)
  }

  // ------------------------------------------------------------------ lemmas

  /** The custom claims are the decoded claims minus the eleven reserved keys, values unchanged. */
  lemma CustomClaimsProjection(decoded: map<string, Value>)
    ensures |Reserved| == 11
    ensures CustomClaims(decoded).Keys == decoded.Keys - Reserved
    ensures forall k | k in CustomClaims(decoded) :: CustomClaims(decoded)[k] == decoded[k]
    ensures CustomClaims(CustomClaims(decoded)) == CustomClaims(decoded)
    ensures decoded.Keys !! Reserved ==> CustomClaims(decoded) == decoded
  {
  }

  /** A user whose token had no role passes no role check. */
  lemma NoRoleRejected(user: AuthUser, requiredRole: string, roles: seq<string>)
    requires user.role.None?
    ensures RequireRole(requiredRole, user).Failure? && RequireAnyRole(roles, user).Failure?
  {
  }

  /** An admin passes every role and tenant check. */
  lemma AdminBypass(user: AuthUser, requiredRole: string, roles: seq<string>, tenantId: string)
    requires user.role == Some(Admin)
    ensures RequireRole(requiredRole, user) == Success(user)
    ensures RequireAnyRole(roles, user) == Success(user)
    ensures RequireTenant(tenantId, user) == Success(user)
  {
  }

  /** With no roles listed only an admin passes, and a single role behaves as `require_role`. */
  lemma AnyRoleEdgeCases(user: AuthUser, r: string)
    ensures RequireAnyRole([], user).Success? <==> user.role == Some(Admin)
    ensures RequireAnyRole([r], user).Success? <==> RequireRole(r, user).Success?
  {
  }

  /** Listing more roles never turns a pass into a refusal. */
  lemma AnyRoleMonotone(user: AuthUser, roles: seq<string>, more: seq<string>)
    requires forall x | x in roles :: x in more
    ensures RequireAnyRole(roles, user).Success? ==> RequireAnyRole(more, user).Success?
  {
  }

  /** The 401 responses for missing, expired, revoked and invalid tokens are told apart by their details. */
  lemma DistinctFailures()
    ensures MissingCredentials != Expired && MissingCredentials != Revoked && MissingCredentials != Invalid
    ensures Expired != Revoked && Expired != Invalid && Revoked != Invalid
    ensures ServiceError.status != Unauthorized
  {
  }

  /** Without credentials every guarded route answers 401, whatever the verifier and the check would do. */
  lemma GuardedMissingCredentials(verify: string -> Verification, check: AuthUser -> Result<AuthUser, HttpError>)
    ensures Guarded(None, verify, check) == Failure(MissingCredentials)
  {
  }

  /** A guarded route lets a user through only when the token verified and the check passed for that user. */
  lemma GuardedPasses(credentials: Option<string>, verify: string -> Verification, requiredRole: string)
    ensures var r := Guarded(credentials, verify, u => RequireRole(requiredRole, u));
      r.Success? <==> VerifyFirebaseToken(credentials, verify).Success?
                      && RequireRole(requiredRole, VerifyFirebaseToken(credentials, verify).value).Success?
  {
  }

  /** A token whose claims carry a role gives a user with that role, and its other claims end up in the custom claims. */
  lemma VerifiedRole(token: string, verify: string -> Verification, role: string)
    requires verify(token).Verified? && Validates(verify(token).claims)
    requires "role" in verify(token).claims && verify(token).claims["role"] == Str(role)
    ensures VerifyFirebaseToken(Some(token), verify).Success?
    ensures VerifyFirebaseToken(Some(token), verify).value.role == Some(role)
    ensures "role" !in VerifyFirebaseToken(Some(token), verify).value.customClaims
  {
  }
}
