/**
 * Registration, login and token refresh over the user table. Login and
 * refresh are functions of the table's current state: they read it and
 * cannot change it.
 */
module AuthServiceModel {
  import opened Wrappers
  import opened AuthModel
  import opened Config
  import opened Security
  import opened Users
  import opened UserRepositoryModel

  /** `Token`: the pair a login or refresh returns. */
  datatype TokenPair = TokenPair(accessToken: Jwt, refreshToken: Jwt, tokenType: string)

  /** The data an access token is issued for: the user's id and stored role. */
  function AccessData(u: UserInDB): map<string, Value> {
    map["sub" := Str(u.userId), "role" := Str(u.role)]
  }

  /** The tokens issued to a user at `now`. */
  function Tokens(u: UserInDB, settings: Settings, now: int): TokenPair {
    TokenPair(CreateAccessToken(AccessData(u), None, settings, now), CreateRefreshToken(u.userId, settings, now), "bearer")
  }

  /** The record has a password hash, that is a non-empty stored string (an OAuth user has none). */
  predicate HasPassword(u: UserInDB) {
    u.hashedPassword.Some? && u.hashedPassword.value != Unrecognised("")
  }

  /** A record lets this password in: it is active, has a hash, and the hash verifies the password. */
  predicate Accepts(u: UserInDB, password: string) {
    u.isActive && HasPassword(u) && VerifyPassword(password, u.hashedPassword.value) == Success(true)
  }

  /**
   * `register_user` as written: the password is hashed and the record
   * written, and then the repository's error after the write reaches the
   * caller; a taken email fails and nothing is written.
   */
  method RegisterUser(repo: UserRepository, data: UserCreate, salt: nat, userId: string, now: int)
    returns (r: Result<User, string>)
    requires repo.Valid() && userId !in repo.table
    modifies repo
    ensures repo.Valid()
    ensures r.Failure?
    ensures old(repo.EmailTaken(data.email)) ==> r == Failure("Email already registered") && repo.table == old(repo.table)
    ensures !old(repo.EmailTaken(data.email)) ==>
      && repo.table == old(repo.table)[userId := NewRecord(data, HashPassword(data.password, salt), userId, now)]
      && r == Failure(DuplicateCreatedAt)
  {
    var hashed := HashPassword(data.password, salt);
    var created := repo.CreateUser(data, hashed, userId, now);
    match created
    case Failure(e) => return Failure(e);
    case Success(u) => return Success(ToUser(u));
  }

  /**
   * `register_user` as its docstring describes it: the password is hashed
   * before the record is written, and the result is the stored record
   * without its hash; a taken email fails and nothing is written.
   */
  method RegisterUserAsDocumented(repo: UserRepository, data: UserCreate, salt: nat, userId: string, now: int)
    returns (r: Result<User, string>)
    requires repo.Valid() && userId !in repo.table
    modifies repo
    ensures repo.Valid()
    ensures old(repo.EmailTaken(data.email)) ==> r == Failure("Email already registered") && repo.table == old(repo.table)
    ensures !old(repo.EmailTaken(data.email)) ==>
      var u := NewRecord(data, HashPassword(data.password, salt), userId, now);
      && repo.table == old(repo.table)[userId := u]
      && r == Success(ToUser(u))
  {
    var hashed := HashPassword(data.password, salt);
    var created := repo.CreateUserAsDocumented(data, hashed, userId, now);
    if created.Failure? {
      return Failure(created.error);
    }
    return Success(ToUser(created.value));
  }

  /**
   * `authenticate_user`: the record holding the email, if it is active, has
   * a hash and the password verifies; `None` otherwise. A stored hash that
   * passlib cannot identify raises.
   */
  function AuthenticateUser(repo: UserRepository, email: string, password: string): (r: Result<Option<UserInDB>, string>)
    reads repo
    requires repo.Valid()
    ensures r == Success(None) <==>
              || !repo.EmailTaken(email) || !repo.GetUserByEmail(email).value.isActive
              || !HasPassword(repo.GetUserByEmail(email).value)
              || VerifyPassword(password, repo.GetUserByEmail(email).value.hashedPassword.value) == Success(false)
    ensures r.Success? && r.value.Some? <==> repo.EmailTaken(email) && Accepts(repo.GetUserByEmail(email).value, password)
    ensures r.Success? && r.value.Some? ==> r.value == repo.GetUserByEmail(email)
    ensures r.Failure? ==> repo.EmailTaken(email) && repo.GetUserByEmail(email).value.hashedPassword.value.Unrecognised?
  {
    match repo.GetUserByEmail(email)
    case None => Success(None)
    case Some(user) =>
      if !user.isActive then Success(None)
      else if !HasPassword(user) then Success(None)
      else
        match VerifyPassword(password, user.hashedPassword.value)
        case Failure(e) => Failure(e)
        case Success(ok) => if !ok then Success(None) else Success(Some(user))
  }

  /** `login`: `None` whenever authentication fails, for whichever reason; else tokens for the user and stored role. */
  function Login(repo: UserRepository, email: string, password: string, settings: Settings, now: int)
    : (r: Result<Option<TokenPair>, string>)
    reads repo
    requires repo.Valid()
    ensures r.Failure? <==> AuthenticateUser(repo, email, password).Failure?
    ensures r == Success(None) <==> AuthenticateUser(repo, email, password) == Success(None)
    ensures r.Success? && r.value.Some? ==>
      r.value.value == Tokens(AuthenticateUser(repo, email, password).value.value, settings, now)
  {
    match AuthenticateUser(repo, email, password)
    case Failure(e) => Failure(e)
    case Success(None) => Success(None)
    case Success(Some(user)) => Success(Some(Tokens(user, settings, now)))
  }

  /**
   * `refresh_access_token`: a valid refresh token for a user that still
   * exists and is active gives new tokens carrying the role stored now;
   * every failure gives `None`.
   */
  function RefreshAccessToken(repo: UserRepository, refreshToken: Jwt, settings: Settings, now: int): (r: Option<TokenPair>)
    reads repo
    ensures r.Some? <==>
      && DecodeRefreshToken(refreshToken, settings, now).Success?
      && "sub" in refreshToken.payload && refreshToken.payload["sub"].Str?
      && refreshToken.payload["sub"].s != ""
      && refreshToken.payload["sub"].s in repo.table && repo.table[refreshToken.payload["sub"].s].isActive
    ensures r.Some? ==> r.value == Tokens(repo.table[refreshToken.payload["sub"].s], settings, now)
  {
    match DecodeRefreshToken(refreshToken, settings, now)
    case Failure(_) => None
    case Success(payload) =>
      var sub := Get(payload, "sub");
      if sub.None? || !sub.value.Str? || sub.value.s == "" then None
      else
        match repo.GetUserById(sub.value.s)
        case None => None
        case Some(user) => if !user.isActive then None else Some(Tokens(user, settings, now))
  }

  /** `get_user_by_id`: the stored record without its hash. */
  function GetUserById(repo: UserRepository, userId: string): (r: Option<User>)
    reads repo
    ensures r.None? <==> userId !in repo.table
    ensures r.Some? ==> r.value == ToUser(repo.table[userId])
  {
    match repo.GetUserById(userId)
    case None => None
    case Some(u) => Some(ToUser(u))
  }

  // ------------------------------------------------------------------ lemmas

  /** The guards in order: unknown email, inactive, no hash, wrong password; each alone refuses. */
  lemma AuthenticationGuards(repo: UserRepository, email: string, password: string)
    requires repo.Valid()
    ensures !repo.EmailTaken(email) ==> AuthenticateUser(repo, email, password) == Success(None)
    ensures repo.EmailTaken(email) && !repo.GetUserByEmail(email).value.isActive ==>
      AuthenticateUser(repo, email, password) == Success(None)
    ensures repo.EmailTaken(email) && repo.GetUserByEmail(email).value.hashedPassword.None? ==>
      AuthenticateUser(repo, email, password) == Success(None)
    ensures repo.EmailTaken(email) && repo.GetUserByEmail(email).value.isActive
            && repo.GetUserByEmail(email).value.hashedPassword.Some?
            && repo.GetUserByEmail(email).value.hashedPassword.value.Bcrypt?
            && repo.GetUserByEmail(email).value.hashedPassword.value.secret != password ==>
      AuthenticateUser(repo, email, password) == Success(None)
  {
  }

  /** A record registered with a password lets exactly that password in while it is active. */
  lemma RegisteredPasswordAccepted(data: UserCreate, salt: nat, userId: string, now: int, password: string)
    ensures Accepts(NewRecord(data, HashPassword(data.password, salt), userId, now), password) <==> password == data.password
  {
  }

  /**
   * The tokens of a login name the user and the stored role: before expiry
   * the access token decodes to them, and the refresh token to the user id.
   */
  lemma LoginTokensDecode(repo: UserRepository, email: string, password: string, settings: Settings, now: int, later: int)
    requires repo.Valid()
    requires Login(repo, email, password, settings, now).Success? && Login(repo, email, password, settings, now).value.Some?
    requires now <= later <= AccessExpiry(None, settings, now) && settings.refreshTokenExpireDays * 86400 >= settings.accessTokenExpireMinutes * 60
    ensures var t := Login(repo, email, password, settings, now).value.value;
      var u := repo.GetUserByEmail(email).value;
      && DecodeAccessToken(t.accessToken, settings, later).Success?
      && t.accessToken.payload["sub"] == Str(u.userId) && t.accessToken.payload["role"] == Str(u.role)
      && DecodeRefreshToken(t.refreshToken, settings, later).Success?
      && t.refreshToken.payload["sub"] == Str(u.userId)
      && t.tokenType == "bearer"
  {
    var u := repo.GetUserByEmail(email).value;
    AccessRoundTrip(AccessData(u), None, settings, now, later);
    RefreshRoundTrip(u.userId, settings, now, later);
  }

  /**
   * A refresh token from a login refreshes, while it is valid and the user
   * is still stored and active, to tokens carrying the role stored at the
   * time of the refresh.
   */
  lemma RefreshAfterLogin(repo: UserRepository, u: UserInDB, settings: Settings, issued: int, now: int)
    requires u.userId != "" && u.userId in repo.table && repo.table[u.userId].isActive
    requires now <= RefreshExpiry(settings, issued)
    ensures var r := RefreshAccessToken(repo, Tokens(u, settings, issued).refreshToken, settings, now);
      && r == Some(Tokens(repo.table[u.userId], settings, now))
      && r.value.accessToken.payload["role"] == Str(repo.table[u.userId].role)
  {
    RefreshRoundTrip(u.userId, settings, issued, now);
  }

  /** An access token cannot be used to refresh, nor can a refresh token of a user who is gone or inactive. */
  lemma RefreshRefusals(repo: UserRepository, u: UserInDB, settings: Settings, issued: int, now: int)
    ensures RefreshAccessToken(repo, Tokens(u, settings, issued).accessToken, settings, now).None?
    ensures u.userId !in repo.table || !repo.table[u.userId].isActive ==>
      RefreshAccessToken(repo, Tokens(u, settings, issued).refreshToken, settings, now).None?
  {
    WrongTypeRejected(AccessData(u), None, u.userId, settings, issued, now);
  }
}
