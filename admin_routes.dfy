/** The `/admin` routes: approve an account by identifier and ban an account
    by username. Both sit behind the authentication and admin gates, modelled
    as a precondition on the caller's token. There is no unban route. */
module AdminRoutes {
  import opened Wrappers
  import opened Models
  import opened Store

  /** POST /admin/approve/:userId. An unknown identifier answers 404 and
      changes nothing; otherwise that account, and only its `isApproved`
      field, becomes true. Approving an approved account changes nothing. */
  method ApproveUser(db: Db, caller: Token, userId: Id) returns (r: Response<()>)
    requires caller.role == AdminRole
    requires db.Valid()
    modifies db
    ensures db.Valid()
    ensures db.properties == old(db.properties) && db.nextId == old(db.nextId)
    ensures UsersEvolve(old(db.users), db.users)
    ensures userId !in old(db.users) ==> r == Fail(404, "User not found") && db.users == old(db.users)
    ensures userId in old(db.users) ==>
      && r == Ok("User approved successfully", ())
      && db.users == old(db.users)[userId := old(db.users)[userId].(isApproved := true)]
    ensures userId in old(db.users) && old(db.users)[userId].isApproved ==> db.users == old(db.users)
  {
    if userId !in db.users {
      return Fail(404, "User not found");
    }
    var u := db.users[userId];
    u := u.(isApproved := true);
    db.users := db.users[userId := u];
    r := Ok("User approved successfully", ());
  }

  /** POST /admin/ban. An unknown username answers 404 and changes nothing;
      otherwise the account with that username gets `isBanned` set, and
      nothing else about it or any other account changes. */
  method BanUser(db: Db, caller: Token, username: string) returns (r: Response<()>)
    requires caller.role == AdminRole
    requires db.Valid()
    modifies db
    ensures db.Valid()
    ensures db.properties == old(db.properties) && db.nextId == old(db.nextId)
    ensures UsersEvolve(old(db.users), db.users)
    ensures (forall id :: id in old(db.users) ==> old(db.users)[id].username != username) ==>
      r == Fail(404, "User not found") && db.users == old(db.users)
    ensures forall id :: id in old(db.users) && old(db.users)[id].username == username ==>
      && r == Ok("User '" + username + "' banned successfully", ())
      && db.users == old(db.users)[id := old(db.users)[id].(isBanned := true)]
  {
    var found := FindOne(db.users, db.nextId, ByUsername(username));
    if found.None? {
      return Fail(404, "User not found");
    }
    var id := found.value;
    var u := db.users[id];
    u := u.(isBanned := true);
    db.users := db.users[id := u];
    r := Ok("User '" + username + "' banned successfully", ());
  }
}
