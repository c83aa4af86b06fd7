/** The in-memory user router: a module-level list of users addressed by 1-based
    position, with create, read, update and delete. */
module UsersRouter {
  import opened Wrappers
  import opened Http

  /** The request body of create and update. */
  datatype UserSchema = UserSchema(username: string, email: string, password: string)

  /** A stored user: the request body together with its id. */
  datatype UserDB = UserDB(id: int, username: string, email: string, password: string)

  const UserNotFound: HttpError := HttpError(NotFoundStatus, "User not found")
  const UserDeleted: string := "User deleted"

  /** The stored record for a request body and an id. */
  function WithId(user: UserSchema, id: int): UserDB {
    UserDB(id, user.username, user.email, user.password)
  }

  /** `s` without its element at index `k`, the others in their old order. */
  function RemoveAt<T>(s: seq<T>, k: nat): (r: seq<T>)
    requires k < |s|
    ensures |r| == |s| - 1
    ensures forall i :: 0 <= i < k ==> r[i] == s[i]
    ensures forall i :: k <= i < |r| ==> r[i] == s[i + 1]
  {
    s[..k] + s[k + 1..]
  }

  /** A 1-based id the handlers accept for a list of this length. */
  predicate InRange(userId: int, length: nat) {
    1 <= userId <= length
  }

  /** Every user's id is its 1-based position. */
  predicate Positional(db: seq<UserDB>) {
    forall i :: 0 <= i < |db| ==> db[i].id == i + 1
  }

  class UserDatabase {
    var database: seq<UserDB>

    constructor ()
      ensures database == []
    {
      database := [];
    }

    /** Appends the user with id one past the current length. */
    method CreateUser(user: UserSchema) returns (userWithId: UserDB)
      modifies this
      ensures userWithId == WithId(user, |old(database)| + 1)
      ensures database == old(database) + [userWithId]
    {
      userWithId := WithId(user, |database| + 1);
      database := database + [userWithId];
    }

    /** The whole list, as stored. */
    method ReadUsers() returns (users: seq<UserDB>)
      ensures users == database
    {
      users := database;
    }

    /** Replaces the user at position `userId`; an id outside 1..length is not found. */
    method UpdateUser(userId: int, user: UserSchema) returns (r: Result<UserDB, HttpError>)
      modifies this
      ensures !InRange(userId, |old(database)|) ==> r == Err(UserNotFound) && database == old(database)
      ensures InRange(userId, |old(database)|) ==>
        && r == Ok(WithId(user, userId))
        && database == old(database)[userId - 1 := WithId(user, userId)]
    {
      if userId > |database| || userId < 1 {
        return Err(UserNotFound);
      }
      var userWithId := WithId(user, userId);
      database := database[userId - 1 := userWithId];
      return Ok(userWithId);
    }

    /** Removes the user at position `userId`; an id outside 1..length is not found. */
    method DeleteUser(userId: int) returns (r: Result<string, HttpError>)
      modifies this
      ensures !InRange(userId, |old(database)|) ==> r == Err(UserNotFound) && database == old(database)
      ensures InRange(userId, |old(database)|) ==>
        r == Ok(UserDeleted) && database == RemoveAt(old(database), userId - 1)
    {
      if userId > |database| || userId < 1 {
        return Err(UserNotFound);
      }
      database := RemoveAt(database, userId - 1);
      return Ok(UserDeleted);
    }
  }

  /** Creating and updating keep every id equal to its position. */
  lemma CreateKeepsPositional(db: seq<UserDB>, user: UserSchema)
    requires Positional(db)
    ensures Positional(db + [WithId(user, |db| + 1)])
  {
  }

  lemma UpdateKeepsPositional(db: seq<UserDB>, userId: int, user: UserSchema)
    requires Positional(db) && InRange(userId, |db|)
    ensures Positional(db[userId - 1 := WithId(user, userId)])
  {
  }

  /** Deleting keeps the other users in order, and the element at each later index
      is the one that was after it. */
  lemma DeleteKeepsOrder(db: seq<UserDB>, userId: int, i: nat, j: nat)
    requires InRange(userId, |db|)
    requires i < j < |RemoveAt(db, userId - 1)|
    ensures var k := userId - 1;
      var oi := if i < k then i else i + 1;
      var oj := if j < k then j else j + 1;
      oi < oj < |db| && RemoveAt(db, k)[i] == db[oi] && RemoveAt(db, k)[j] == db[oj]
  {
  }

  /** After deleting any user but the last, the remaining users after it no longer
      sit at the position their id names. */
  lemma DeleteShiftsLaterIds(db: seq<UserDB>, userId: int)
    requires Positional(db) && InRange(userId, |db|) && userId < |db|
    ensures !Positional(RemoveAt(db, userId - 1))
  {
    var r := RemoveAt(db, userId - 1);
    assert r[userId - 1] == db[userId];
  }

  /** Deleting any user but the last from a list whose ids are their positions, and
      then creating a user, gives the new user an id the old last user still holds
      (with users 1 and 2, deleting 1 and creating another gives ids 2 and 2). */
  lemma DeleteThenCreateDuplicatesId(db: seq<UserDB>, userId: int, user: UserSchema)
    requires Positional(db) && InRange(userId, |db|) && userId < |db|
    ensures var afterDelete := RemoveAt(db, userId - 1);
      var afterCreate := afterDelete + [WithId(user, |afterDelete| + 1)];
      |afterCreate| == |db| && afterCreate[|db| - 2].id == afterCreate[|db| - 1].id
  {
    var afterDelete := RemoveAt(db, userId - 1);
    assert afterDelete[|db| - 2] == db[|db| - 1];
  }
}
