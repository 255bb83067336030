/**
 * The user-management service: reads and writes go to the user table, and
 * every record handed back is the public projection without its hash. A role
 * change is checked against the whitelist before anything is written.
 */
module UserServiceModel {
  import opened Wrappers
  import opened Users
  import opened UserRepositoryModel

  /** The roles a user may be given. */
  const ValidRoles: set<string> := {"user", "recruiter", "admin"}

  const InvalidRoleMessage: string := "Invalid role. Must be one of: {'user', 'recruiter', 'admin'}"

  /** `get_user`: the projection of the stored record, or `None` when there is none. */
  function GetUser(repo: UserRepository, userId: string): (r: Option<User>)
    reads repo
    ensures r.None? <==> userId !in repo.table
    ensures r.Some? ==> r.value == ToUser(repo.table[userId])
    ensures r.Some? && repo.Valid() ==> r.value.userId == userId
  {
    match repo.GetUserById(userId)
    case None => None
    case Some(u) => Some(ToUser(u))
  }

  /** `update_user`: the repository's update, projected; its refusal of a taken email reaches the caller. */
  method UpdateUser(repo: UserRepository, userId: string, update: UserUpdate, now: int) returns (r: Result<Option<User>, string>)
    requires repo.Valid()
    modifies repo
    ensures repo.Valid()
    ensures userId !in old(repo.table) ==> r == Success(None) && repo.table == old(repo.table)
    ensures r.Failure? ==> r.error == "Email already in use" && repo.table == old(repo.table)
    ensures r.Success? && r.value.Some? ==> userId in repo.table && r.value.value == ToUser(repo.table[userId])
    ensures userId in old(repo.table) && update.email.Some? && old(repo.EmailHeldByOther(update.email.value, userId)) ==>
      r == Failure("Email already in use")
    ensures userId in old(repo.table) && !(update.email.Some? && old(repo.EmailHeldByOther(update.email.value, userId))) ==>
      && r.Success? && r.value.Some?
      && repo.table[userId] == (if HasChanges(update) then Updated(old(repo.table)[userId], update, now)
                                else old(repo.table)[userId])
    ensures r.Success? ==> forall id | id != userId :: (id in repo.table <==> id in old(repo.table))
                                                       && (id in repo.table ==> repo.table[id] == old(repo.table)[id])
  {
    var updated := repo.UpdateUser(userId, update, now);
    if updated.Failure? {
      return Failure(updated.error);
    }
    if updated.value.None? {
      return Success(None);
    }
    return Success(Some(ToUser(updated.value.value)));
  }

  /** `delete_user`: the repository's answer, unchanged. */
  method DeleteUser(repo: UserRepository, userId: string, now: int) returns (ok: bool)
    requires repo.Valid()
    modifies repo
    ensures repo.Valid() && ok
    ensures userId in old(repo.table) ==>
      repo.table == old(repo.table)[userId := old(repo.table)[userId].(isActive := false, updatedAt := now)]
    ensures userId !in old(repo.table) ==> repo.table == old(repo.table)
  {
    ok := repo.DeleteUser(userId, now);
  }

  /**
   * `update_user_role`: a role off the whitelist is refused before any write;
   * otherwise the repository changes the role and the result carries it.
   */
  method UpdateUserRole(repo: UserRepository, userId: string, role: string, now: int) returns (r: Result<User, string>)
    requires repo.Valid()
    modifies repo
    ensures repo.Valid()
    ensures role !in ValidRoles ==> r == Failure(InvalidRoleMessage) && repo.table == old(repo.table)
    ensures role in ValidRoles && userId in old(repo.table) ==>
      && repo.table == old(repo.table)[userId := old(repo.table)[userId].(role := role, updatedAt := now)]
      && r == Success(ToUser(repo.table[userId])) && r.value.role == role
    ensures role in ValidRoles && userId !in old(repo.table) ==> r.Failure? && repo.table == old(repo.table)
  {
    if role !in ValidRoles {
      return Failure(InvalidRoleMessage);
    }
    var updated := repo.UpdateUserRole(userId, role, now);
    if updated.Failure? {
      return Failure(updated.error);
    }
    return Success(ToUser(updated.value));
  }

  // ------------------------------------------------------------------ lemmas

  /** The whitelist has three roles and admits no other string. */
  lemma RoleWhitelist(role: string)
    ensures |ValidRoles| == 3
    ensures role in ValidRoles <==> role == "user" || role == "recruiter" || role == "admin"
  {
  }
}
