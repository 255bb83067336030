/**
 * The user table. The database table becomes a map from user id to record
 * held by the repository object and changed in place by its methods; the
 * generated ids and the clock are parameters. Every record is stored under
 * its own id and no two records share an email.
 */
module UserRepositoryModel {
  import opened Wrappers
  import opened Security
  import opened Users

  /** The `TypeError` raised by `UserInDB(**item, created_at=now, updated_at=now)`. */
  const DuplicateCreatedAt: string := "UserInDB() got multiple values for keyword argument 'created_at'"

  class UserRepository {
    var table: map<string, UserInDB>

    /** Records are keyed by their own id and emails are unique across records. */
    predicate Valid()
      reads this
    {
      && (forall id | id in table :: table[id].userId == id)
      && (forall a, b | a in table && b in table && table[a].email == table[b].email :: a == b)
    }

    constructor()
      ensures table == map[] && Valid()
    {
      table := map[];
    }

    /** Some record holds the email. */
    predicate EmailTaken(email: string)
      reads this
    {
      exists id | id in table :: table[id].email == email
    }

    /** A record other than `userId`'s holds the email. */
    predicate EmailHeldByOther(email: string, userId: string)
      reads this
    {
      exists id | id in table :: table[id].email == email && id != userId
    }

    /** `get_user_by_id`. */
    function GetUserById(userId: string): (r: Option<UserInDB>)
      reads this
      ensures r.Some? <==> userId in table
      ensures r.Some? ==> r.value == table[userId]
    {
      if userId in table then Some(table[userId]) else None
    }

    /** `get_user_by_email`: the one record holding the email, if any. */
    function GetUserByEmail(email: string): (r: Option<UserInDB>)
      reads this
      requires Valid()
      ensures r.Some? <==> EmailTaken(email)
      ensures r.Some? ==> r.value.email == email && r.value.userId in table && table[r.value.userId] == r.value
    {
      if EmailTaken(email) then
        var id :| id in table && table[id].email == email;
        Some(table[id])
      else None
    }

    /**
     * `create_user` as written: a taken email is refused before anything is
     * written; otherwise the new record is stored, and building the returned
     * `UserInDB` then raises, because the item already holds `created_at` and
     * `updated_at` and the call passes them again as keywords. No call returns
     * a record.
     */
    method CreateUser(user: UserCreate, hashedPassword: Digest, userId: string, now: int) returns (r: Result<UserInDB, string>)
      requires Valid()
      requires userId !in table
      modifies this
      ensures Valid()
      ensures r.Failure?
      ensures old(EmailTaken(user.email)) ==> r == Failure("Email already registered") && table == old(table)
      ensures !old(EmailTaken(user.email)) ==>
        r == Failure(DuplicateCreatedAt) && table == old(table)[userId := NewRecord(user, hashedPassword, userId, now)]
    {
      var existing := GetUserByEmail(user.email);
      if existing.Some? {
        return Failure("Email already registered");
      }
      var item := NewRecord(user, hashedPassword, userId, now);
      table := table[userId := item];
      return Failure(DuplicateCreatedAt);
    }

    /**
     * `create_user` as its docstring describes it: the same refusal and the
     * same write, and the stored record is returned.
     */
    method CreateUserAsDocumented(user: UserCreate, hashedPassword: Digest, userId: string, now: int)
      returns (r: Result<UserInDB, string>)
      requires Valid()
      requires userId !in table
      modifies this
      ensures Valid()
      ensures old(EmailTaken(user.email)) ==> r == Failure("Email already registered") && table == old(table)
      ensures !old(EmailTaken(user.email)) ==>
        r == Success(NewRecord(user, hashedPassword, userId, now)) && table == old(table)[userId := r.value]
    {
      var existing := GetUserByEmail(user.email);
      if existing.Some? {
        return Failure("Email already registered");
      }
      var item := NewRecord(user, hashedPassword, userId, now);
      table := table[userId := item];
      return Success(item);
    }

    /**
     * `update_user`: an unknown id gives `None`; an email held by another
     * record is refused before anything is written; an update with no fields
     * gives the stored record untouched; otherwise the supplied fields and
     * `updated_at` are written.
     */
    method UpdateUser(userId: string, update: UserUpdate, now: int) returns (r: Result<Option<UserInDB>, string>)
      requires Valid()
      modifies this
      ensures Valid()
      ensures userId !in old(table) ==> r == Success(None) && table == old(table)
      ensures userId in old(table) && update.email.Some? && old(EmailHeldByOther(update.email.value, userId)) ==>
        r == Failure("Email already in use") && table == old(table)
      ensures userId in old(table) && !HasChanges(update) ==> r == Success(Some(old(table)[userId])) && table == old(table)
      ensures userId in old(table) && HasChanges(update)
              && !(update.email.Some? && old(EmailHeldByOther(update.email.value, userId))) ==>
        && r == Success(Some(Updated(old(table)[userId], update, now)))
        && table == old(table)[userId := Updated(old(table)[userId], update, now)]
    {
      var user := GetUserById(userId);
      if user.None? {
        return Success(None);
      }
      if update.email.Some? {
        var existing := GetUserByEmail(update.email.value);
        if existing.Some? && existing.value.userId != userId {
          return Failure("Email already in use");
        }
        assert !EmailHeldByOther(update.email.value, userId);
      }
      if !HasChanges(update) {
        return Success(user);
      }
      var item := Updated(user.value, update, now);
      table := table[userId := item];
      return Success(Some(item));
    }

    /** `delete_user`: a soft delete; the record stays, inactive, and the answer is always true. */
    method DeleteUser(userId: string, now: int) returns (ok: bool)
      requires Valid()
      modifies this
      ensures Valid() && ok
      ensures userId in old(table) ==> table == old(table)[userId := old(table)[userId].(isActive := false, updatedAt := now)]
      ensures userId !in old(table) ==> table == old(table)
    {
      if userId in table {
        table := table[userId := table[userId].(isActive := false, updatedAt := now)];
      }
      return true;
    }

    /** `update_user_role`: only the role and `updated_at` change; an unknown id has no `created_at` to read and raises. */
    method UpdateUserRole(userId: string, role: string, now: int) returns (r: Result<UserInDB, string>)
      requires Valid()
      modifies this
      ensures Valid()
      ensures userId in old(table) ==>
        && r == Success(old(table)[userId].(role := role, updatedAt := now))
        && table == old(table)[userId := r.value]
      ensures userId !in old(table) ==> r == Failure("'created_at'") && table == old(table)
    {
      if userId !in table {
        return Failure("'created_at'");
      }
      var item := table[userId].(role := role, updatedAt := now);
      table := table[userId := item];
      return Success(item);
    }
  }
}
