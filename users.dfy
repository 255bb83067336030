/**
 * The user records of the auth service: registration and update requests,
 * the stored record, and the public `User` it is shown as. The record
 * schemas' own module (`models/user.py`) is not part of this model; the
 * fields are the ones the repository and the services read and write.
 */
module Users {
  import opened Wrappers
  import opened Security

  /** `UserCreate`: a registration request. */
  datatype UserCreate = UserCreate(email: string, password: string, fullName: Option<string> := None)

  /** `UserUpdate`: a partial update; `None` leaves the field alone. */
  datatype UserUpdate = UserUpdate(fullName: Option<string> := None, email: Option<string> := None)

  /** `UserInDB`: a stored record, with timestamps in seconds. */
  datatype UserInDB = UserInDB(
    userId: string,
    email: string,
    fullName: Option<string>,
    hashedPassword: Option<Digest>,
    isActive: bool,
    role: string,
    oauthProvider: Option<string>,
    createdAt: int,
    updatedAt: int)

  /** `User`: what the services return; it has no password field. */
  datatype User = User(
    userId: string,
    email: string,
    fullName: Option<string>,
    isActive: bool,
    role: string,
    oauthProvider: Option<string>,
    createdAt: int)

  /** The projection every service applies to a stored record. */
  function ToUser(u: UserInDB): (r: User)
    ensures r.userId == u.userId && r.email == u.email && r.fullName == u.fullName
    ensures r.isActive == u.isActive && r.role == u.role && r.oauthProvider == u.oauthProvider
    ensures r.createdAt == u.createdAt
  {
    User(u.userId, u.email, u.fullName, u.isActive, u.role, u.oauthProvider, u.createdAt)
  }

  /** The record `create_user` stores: active, role "user", no OAuth provider, created and updated at the same time. */
  function NewRecord(user: UserCreate, hashedPassword: Digest, userId: string, now: int): (u: UserInDB)
    ensures u.userId == userId && u.email == user.email && u.fullName == user.fullName
    ensures u.hashedPassword == Some(hashedPassword)
    ensures u.isActive && u.role == "user" && u.oauthProvider.None? && u.createdAt == u.updatedAt == now
  {
    UserInDB(userId, user.email, user.fullName, Some(hashedPassword), true, "user", None, now, now)
  }

  /** True when an update supplies at least one field. */
  predicate HasChanges(update: UserUpdate) {
    update.fullName.Some? || update.email.Some?
  }

  /** A record after a partial update that supplies something: the supplied fields and `updated_at` change. */
  function Updated(u: UserInDB, update: UserUpdate, now: int): UserInDB {
    u.(fullName := if update.fullName.Some? then update.fullName else u.fullName,
       email := if update.email.Some? then update.email.value else u.email,
       updatedAt := now)
  }

  // ------------------------------------------------------------------ lemmas

  /** The projection forgets exactly the password hash and `updated_at`. */
  lemma ProjectionForgetsPassword(u: UserInDB, v: UserInDB)
    ensures ToUser(u) == ToUser(v) <==> u.(hashedPassword := v.hashedPassword, updatedAt := v.updatedAt) == v
  {
  }

  /** An update changes the supplied fields and `updated_at`, and never the id, role, activity, hash, provider or creation time. */
  lemma UpdateKeepsOtherFields(u: UserInDB, update: UserUpdate, now: int)
    ensures var v := Updated(u, update, now);
      && v.userId == u.userId && v.role == u.role && v.isActive == u.isActive
      && v.hashedPassword == u.hashedPassword && v.oauthProvider == u.oauthProvider && v.createdAt == u.createdAt
      && v.updatedAt == now
      && v.fullName == (if update.fullName.Some? then update.fullName else u.fullName)
      && v.email == (if update.email.Some? then update.email.value else u.email)
  {
  }
}
