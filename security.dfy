/**
 * Password hashing and the JSON Web Tokens of the auth service. Signing is an
 * ideal codec: a token is its payload together with the key and algorithm
 * that signed it, so it verifies exactly under that key and algorithm and
 * cannot be forged. Claims follow section 4.1 of RFC 7519 (`sub` 4.1.2,
 * `exp` 4.1.4); the signature is HMAC SHA-256 (section 3.2 of RFC 7518). A
 * bcrypt digest is ideal in the same way. Times are whole seconds and the
 * current time is a parameter.
 */
module Security {
  import opened Wrappers
  import opened AuthModel
  import opened Config

  /** An encoded token: a signed payload, or a string that is not a token at all. */
  datatype Jwt = Signed(payload: map<string, Value>, key: string, algorithm: string) | Malformed(text: string)

  /** A stored password hash: a bcrypt digest of a salt and secret, or a string passlib cannot identify. */
  datatype Digest = Bcrypt(salt: nat, secret: string) | Unrecognised(text: string)

  /** `hash_password`; the salt is bcrypt's random salt. */
  function HashPassword(password: string, salt: nat): Digest {
    Bcrypt(salt, password)
  }

  /** `verify_password`: whether the password is the one hashed; passlib raises on a hash it cannot identify. */
  function VerifyPassword(plain: string, hashed: Digest): Result<bool, string> {
    match hashed
    case Bcrypt(_, secret) => Success(plain == secret)
    case Unrecognised(_) => Failure("hash could not be identified")
  }

  /** `jwt.encode` with the configured key and algorithm. */
  function Encode(payload: map<string, Value>, settings: Settings): Jwt {
    Signed(payload, settings.jwtSecretKey, settings.jwtAlgorithm)
  }

  /** The registered claims a decoder validates: a numeric `exp` not yet past, and a string `sub`. */
  predicate ClaimsValid(payload: map<string, Value>, now: int) {
    && ("exp" in payload ==> payload["exp"].Int? && payload["exp"].i >= now)
    && ("sub" in payload ==> payload["sub"].Str?)
  }

  /**
   * `jwt.decode` with the configured key and the configured algorithm as the
   * only one allowed: the payload of a token signed that way whose claims are
   * valid at `now`.
   */
  function Decode(token: Jwt, settings: Settings, now: int): (r: Result<map<string, Value>, string>)
    ensures r.Success? <==> token.Signed? && token.key == settings.jwtSecretKey
                            && token.algorithm == settings.jwtAlgorithm && ClaimsValid(token.payload, now)
    ensures r.Success? ==> r.value == token.payload
  {
    match token
    case Malformed(_) => Failure("Not enough segments")
    case Signed(payload, key, algorithm) =>
      if algorithm != settings.jwtAlgorithm then Failure("The specified alg value is not allowed")
      else if key != settings.jwtSecretKey then Failure("Signature verification failed.")
      else if "exp" in payload && !payload["exp"].Int? then Failure("Expiration Time claim (exp) must be an integer.")
      else if "exp" in payload && payload["exp"].i < now then Failure("Signature has expired.")
      else if "sub" in payload && !payload["sub"].Str? then Failure("Subject must be a string.")
      else Success(payload)
  }

  /** The expiry of an access token: a non-zero delta if one is given, else the configured minutes. */
  function AccessExpiry(expiresDelta: Option<int>, settings: Settings, now: int): (t: int)
    ensures expiresDelta.Some? && expiresDelta.value != 0 ==> t == now + expiresDelta.value
    ensures expiresDelta.None? || expiresDelta.value == 0 ==> t == now + settings.accessTokenExpireMinutes * 60
  {
    if expiresDelta.Some? && expiresDelta.value != 0 then now + expiresDelta.value
    else now + settings.accessTokenExpireMinutes * 60
  }

  /** The expiry of a refresh token: the configured number of days. */
  function RefreshExpiry(settings: Settings, now: int): int {
    now + settings.refreshTokenExpireDays * 86400
  }

  /** What an access token carries: the caller's data, with `exp` and `type` set over any the caller gave. */
  function AccessPayload(data: map<string, Value>, expiry: int): (p: map<string, Value>)
    ensures p.Keys == data.Keys + {"exp", "type"}
    ensures p["exp"] == Int(expiry) && p["type"] == Str("access")
    ensures forall k | k in data && k != "exp" && k != "type" :: p[k] == data[k]
  {
    data["exp" := Int(expiry)]["type" := Str("access")]
  }

  /** What a refresh token carries: the user id, `exp` and `type` and nothing else. */
  function RefreshPayload(userId: string, expiry: int): (p: map<string, Value>)
    ensures p.Keys == {"sub", "exp", "type"} && "role" !in p
    ensures p["sub"] == Str(userId) && p["exp"] == Int(expiry) && p["type"] == Str("refresh")
  {
    map["sub" := Str(userId), "exp" := Int(expiry), "type" := Str("refresh")]
  }

  /** `create_access_token`; `data` itself is a value and is left as it was. */
  function CreateAccessToken(data: map<string, Value>, expiresDelta: Option<int>, settings: Settings, now: int): (t: Jwt)
    ensures t.Signed? && t.payload == AccessPayload(data, AccessExpiry(expiresDelta, settings, now))
    ensures t.key == settings.jwtSecretKey && t.algorithm == settings.jwtAlgorithm
  {
    Encode(AccessPayload(data, AccessExpiry(expiresDelta, settings, now)), settings)
  }

  /** `create_refresh_token`. */
  function CreateRefreshToken(userId: string, settings: Settings, now: int): (t: Jwt)
    ensures t.Signed? && t.payload == RefreshPayload(userId, RefreshExpiry(settings, now))
    ensures t.key == settings.jwtSecretKey && t.algorithm == settings.jwtAlgorithm
  {
    Encode(RefreshPayload(userId, RefreshExpiry(settings, now)), settings)
  }

  /** A decoded payload is of the given token type. */
  predicate OfType(payload: map<string, Value>, kind: string) {
    Get(payload, "type") == Some(Str(kind))
  }

  /** `decode_access_token`: a decodable token whose `type` is "access". */
  function DecodeAccessToken(token: Jwt, settings: Settings, now: int): (r: Result<map<string, Value>, string>)
    ensures r.Success? <==> Decode(token, settings, now).Success? && OfType(Decode(token, settings, now).value, "access")
    ensures r.Success? ==> r.value == token.payload && r.value["type"] == Str("access")
  {
    match Decode(token, settings, now)
    case Failure(e) => Failure(e)
    case Success(payload) => if Get(payload, "type") != Some(Str("access")) then Failure("Invalid token type") else Success(payload)
  }

  /** `decode_refresh_token`: a decodable token whose `type` is "refresh". */
  function DecodeRefreshToken(token: Jwt, settings: Settings, now: int): (r: Result<map<string, Value>, string>)
    ensures r.Success? <==> Decode(token, settings, now).Success? && OfType(Decode(token, settings, now).value, "refresh")
    ensures r.Success? ==> r.value == token.payload && r.value["type"] == Str("refresh")
  {
    match Decode(token, settings, now)
    case Failure(e) => Failure(e)
    case Success(payload) => if Get(payload, "type") != Some(Str("refresh")) then Failure("Invalid token type") else Success(payload)
  }

  // ------------------------------------------------------------------ lemmas

  /** A hash verifies its own password and no other; two hashes of one password under different salts differ. */
  lemma HashAxioms(p: string, q: string, salt: nat, salt2: nat)
    ensures VerifyPassword(p, HashPassword(p, salt)) == Success(true)
    ensures q != p ==> VerifyPassword(q, HashPassword(p, salt)) == Success(false)
    ensures salt != salt2 ==> HashPassword(p, salt) != HashPassword(p, salt2)
  {
  }

  /** A zero delta is falsy and falls back to the configured minutes, as no delta does. */
  lemma ZeroDeltaFallsBack(settings: Settings, now: int)
    ensures AccessExpiry(Some(0), settings, now) == AccessExpiry(None, settings, now)
    ensures AccessExpiry(None, Settings(settings.jwtSecretKey), now) == now + 1800
  {
  }

  /**
   * An access token decodes, before it expires, to the caller's data with its
   * `exp` and with type "access", even when the caller asked for another type.
   */
  lemma AccessRoundTrip(data: map<string, Value>, expiresDelta: Option<int>, settings: Settings, now: int, later: int)
    requires "sub" in data ==> data["sub"].Str?
    requires later <= AccessExpiry(expiresDelta, settings, now)
    ensures var r := DecodeAccessToken(CreateAccessToken(data, expiresDelta, settings, now), settings, later);
      && r == Success(AccessPayload(data, AccessExpiry(expiresDelta, settings, now)))
      && r.value["type"] == Str("access")
      && (forall k | k in data && k != "exp" && k != "type" :: r.value[k] == data[k])
  {
    var p := AccessPayload(data, AccessExpiry(expiresDelta, settings, now));
    assert ClaimsValid(p, later);
    assert OfType(p, "access");
  }

  /** A refresh token decodes, before it expires, to the user id and nothing but `exp` and `type`. */
  lemma RefreshRoundTrip(userId: string, settings: Settings, now: int, later: int)
    requires later <= RefreshExpiry(settings, now)
    ensures var r := DecodeRefreshToken(CreateRefreshToken(userId, settings, now), settings, later);
      && r == Success(RefreshPayload(userId, RefreshExpiry(settings, now)))
      && r.value.Keys == {"sub", "exp", "type"}
      && r.value["sub"] == Str(userId) && "role" !in r.value
  {
    var p := RefreshPayload(userId, RefreshExpiry(settings, now));
    assert ClaimsValid(p, later);
    assert OfType(p, "refresh");
  }

  /** No token decodes both as an access token and as a refresh token: access tokens never refresh. */
  lemma TokenTypesDisjoint(token: Jwt, settings: Settings, now: int)
    ensures !(DecodeAccessToken(token, settings, now).Success? && DecodeRefreshToken(token, settings, now).Success?)
  {
  }

  /** In particular an access token never decodes as a refresh token, and a refresh token never as an access token. */
  lemma WrongTypeRejected(data: map<string, Value>, expiresDelta: Option<int>, userId: string, settings: Settings, now: int, later: int)
    ensures DecodeRefreshToken(CreateAccessToken(data, expiresDelta, settings, now), settings, later).Failure?
    ensures DecodeAccessToken(CreateRefreshToken(userId, settings, now), settings, later).Failure?
  {
    var a := CreateAccessToken(data, expiresDelta, settings, now);
    var r := CreateRefreshToken(userId, settings, now);
    assert a.payload["type"] == Str("access");
    assert r.payload["type"] == Str("refresh");
  }

  /** A token is refused once its expiry has passed, and under any other key. */
  lemma ExpiredOrForeignRejected(data: map<string, Value>, expiresDelta: Option<int>, settings: Settings, other: Settings, now: int, later: int)
    ensures later > AccessExpiry(expiresDelta, settings, now) ==>
      DecodeAccessToken(CreateAccessToken(data, expiresDelta, settings, now), settings, later).Failure?
    ensures other.jwtSecretKey != settings.jwtSecretKey ==>
      DecodeAccessToken(CreateAccessToken(data, expiresDelta, settings, now), other, later).Failure?
  {
    var a := CreateAccessToken(data, expiresDelta, settings, now);
    assert a.payload["exp"] == Int(AccessExpiry(expiresDelta, settings, now));
  }
}
