/**
 * Helpers around the identity provider: the custom-claims check and the
 * keyword arguments `create_user` and `update_user` forward to the provider.
 */
module AuthUtils {
  import opened Wrappers
  import opened AuthModel
  import opened Middleware

  /**
   * What one required pair demands of the user: `role` and `tenant_id` are
   * compared with the token's own fields, every other key with the custom
   * claims; and a custom claim under the same key must match as well.
   */
  predicate ClaimHolds(user: AuthUser, key: string, value: Value) {
    if key == "role" then
      Equal(OptionValue(user.role), value) && (key in user.customClaims ==> Equal(user.customClaims[key], value))
    else if key == "tenant_id" then
      Equal(OptionValue(user.tenantId), value) && (key in user.customClaims ==> Equal(user.customClaims[key], value))
    else
      key in user.customClaims && Equal(user.customClaims[key], value)
  }

  /** The test a loop iteration makes on one required pair: true when it returns `False`. */
  predicate Refuses(user: AuthUser, key: string, value: Value) {
    if key == "role" && !Equal(OptionValue(user.role), value) then true
    else if key == "tenant_id" && !Equal(OptionValue(user.tenantId), value) then true
    else if key in user.customClaims && !Equal(user.customClaims[key], value) then true
    else key != "role" && key != "tenant_id" && key !in user.customClaims
  }

  /**
   * `verify_custom_claims`: the required pairs are visited in an order the
   * caller does not control (each iteration picks any key not yet visited),
   * and the first refused pair returns false.
   */
  method VerifyCustomClaims(user: AuthUser, required: map<string, Value>) returns (ok: bool)
    ensures ok <==> forall k | k in required :: ClaimHolds(user, k, required[k])
  {
    var pending := required.Keys;
    while pending != {}
      invariant pending <= required.Keys
      invariant forall k | k in required.Keys - pending :: ClaimHolds(user, k, required[k])
      decreases |pending|
    {
      var key :| key in pending;
      RefusesIffNotHolds(user, key, required[key]);
      if Refuses(user, key, required[key]) {
        return false;
      }
      pending := pending - {key};
    }
    return true;
  }

  /**
   * `create_user`'s arguments: email and email_verified always; password,
   * display name and photo URL only when given and non-empty.
   */
  method CreateUserArgs(email: string, password: Option<string>, displayName: Option<string>,
                        photoUrl: Option<string>, emailVerified: bool) returns (kwargs: map<string, Value>)
    ensures kwargs.Keys == {"email", "email_verified"} + Truthy("password", password)
                           + Truthy("display_name", displayName) + Truthy("photo_url", photoUrl)
    ensures kwargs["email"] == Str(email) && kwargs["email_verified"] == Bool(emailVerified)
    ensures "password" in kwargs ==> kwargs["password"] == Str(password.value)
    ensures "display_name" in kwargs ==> kwargs["display_name"] == Str(displayName.value)
    ensures "photo_url" in kwargs ==> kwargs["photo_url"] == Str(photoUrl.value)
  {
    kwargs := map["email" := Str(email), "email_verified" := Bool(emailVerified)];
    if password.Some? && password.value != "" {
      kwargs := kwargs["password" := Str(password.value)];
    }
    if displayName.Some? && displayName.value != "" {
      kwargs := kwargs["display_name" := Str(displayName.value)];
    }
    if photoUrl.Some? && photoUrl.value != "" {
      kwargs := kwargs["photo_url" := Str(photoUrl.value)];
    }
  }

  /** `update_user`'s arguments: exactly the optional arguments that are not `None`. */
  method UpdateUserArgs(email: Option<string>, password: Option<string>, displayName: Option<string>,
                        photoUrl: Option<string>, emailVerified: Option<bool>, disabled: Option<bool>)
    returns (kwargs: map<string, Value>)
    ensures kwargs.Keys == Given("email", email) + Given("password", password) + Given("display_name", displayName)
                           + Given("photo_url", photoUrl) + Given("email_verified", emailVerified)
                           + Given("disabled", disabled)
    ensures "email" in kwargs ==> kwargs["email"] == Str(email.value)
    ensures "password" in kwargs ==> kwargs["password"] == Str(password.value)
    ensures "display_name" in kwargs ==> kwargs["display_name"] == Str(displayName.value)
    ensures "photo_url" in kwargs ==> kwargs["photo_url"] == Str(photoUrl.value)
    ensures "email_verified" in kwargs ==> kwargs["email_verified"] == Bool(emailVerified.value)
    ensures "disabled" in kwargs ==> kwargs["disabled"] == Bool(disabled.value)
  {
    kwargs := map[];
    if email.Some? {
      kwargs := kwargs["email" := Str(email.value)];
    }
    if password.Some? {
      kwargs := kwargs["password" := Str(password.value)];
    }
    if displayName.Some? {
      kwargs := kwargs["display_name" := Str(displayName.value)];
    }
    if photoUrl.Some? {
      kwargs := kwargs["photo_url" := Str(photoUrl.value)];
    }
    if emailVerified.Some? {
      kwargs := kwargs["email_verified" := Bool(emailVerified.value)];
    }
    if disabled.Some? {
      kwargs := kwargs["disabled" := Bool(disabled.value)];
    }
  }

  /** The key, when the optional string is given and non-empty (Python truthiness). */
  function Truthy(key: string, o: Option<string>): set<string> {
    if o.Some? && o.value != "" then {key} else {}
  }

  /** The key, when the optional argument is not `None`. */
  function Given<T>(key: string, o: Option<T>): set<string> {
    if o.Some? then {key} else {}
  }

  // ------------------------------------------------------------------ lemmas

  /** A loop iteration refuses a pair exactly when the pair does not hold. */
  lemma RefusesIffNotHolds(user: AuthUser, key: string, value: Value)
    ensures Refuses(user, key, value) <==> !ClaimHolds(user, key, value)
  {
  }

  /** A `role` requirement matching the token's role still fails when a custom `role` claim disagrees. */
  lemma RoleShadowedByCustomClaim(user: AuthUser, role: string, other: Value)
    requires user.role == Some(role) && "role" in user.customClaims && user.customClaims["role"] == other
    requires other != Str(role)
    ensures !ClaimHolds(user, "role", Str(role))
  {
    EqualStrings(role, other);
  }

  /** A requirement on any other key fails when the claim is absent, and holds when it is present with an equal value. */
  lemma CustomKeyRequirement(user: AuthUser, key: string, value: Value)
    requires key != "role" && key != "tenant_id"
    ensures key !in user.customClaims ==> !ClaimHolds(user, key, value)
    ensures key in user.customClaims ==> (ClaimHolds(user, key, value) <==> Equal(user.customClaims[key], value))
  {
  }

  /** The examples the module's tests check. */
  lemma ClaimExamples(user: AuthUser)
    requires user.role == Some("user") && user.tenantId == Some("test-tenant") && user.customClaims == map[]
    ensures ClaimHolds(user, "role", Str("user")) && ClaimHolds(user, "tenant_id", Str("test-tenant"))
    ensures !ClaimHolds(user, "role", Str("admin"))
    ensures !ClaimHolds(user, "missing_claim", Str("value"))
  {
  }

  /** An empty string is dropped by `create_user` but forwarded by `update_user`. */
  lemma EmptyStringArguments()
    ensures Truthy("password", Some("")) == {} && Given("password", Some("")) == {"password"}
    ensures Truthy("password", Some("secret")) == Given("password", Some("secret"))
  {
  }
}
