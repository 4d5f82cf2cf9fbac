/** The `/auth` routes: sign-up (a conflict check, then an insert of an
    unapproved account) and login (an ordered chain of guards over the
    account found by username). */
module AuthRoutes {
  import opened Wrappers
  import opened Models
  import opened Store

  /** The body of a sign-up request. A field the client leaves out is the empty string. */
  datatype RegisterRequest = RegisterRequest(
    name: string,
    username: string,
    password: string,
    email: string,
    defaultPincode: string)

  /** Some account already has the requested username or the requested email. */
  ghost predicate Conflicts(users: map<Id, User>, req: RegisterRequest) {
    exists id :: id in users && (users[id].username == req.username || users[id].email == req.email)
  }

  /** A schema-required field is missing: the save is rejected. */
  predicate MissingRequired(req: RegisterRequest) {
    req.name == "" || req.username == "" || req.password == "" || req.email == ""
  }

  /** POST /auth/register. A conflict answers 400 and changes nothing; a
      request the schema rejects answers 500 and changes nothing; otherwise
      exactly one account is added under a fresh identifier, with role user,
      unapproved and not banned. */
  method Register(db: Db, req: RegisterRequest) returns (r: Response<Id>)
    requires db.Valid()
    modifies db
    ensures db.Valid()
    ensures db.properties == old(db.properties)
    ensures Conflicts(old(db.users), req) ==>
      r == Fail(400, "Username or Email already exists")
      && db.users == old(db.users) && db.nextId == old(db.nextId)
    ensures !Conflicts(old(db.users), req) && MissingRequired(req) ==>
      r == Fail(500, ServerError) && db.users == old(db.users) && db.nextId == old(db.nextId)
    ensures !Conflicts(old(db.users), req) && !MissingRequired(req) ==>
      && r == Ok("Registration request sent. Wait for admin approval.", old(db.nextId))
      && old(db.nextId) !in old(db.users)
      && db.users == old(db.users)[old(db.nextId) := NewUser(req.name, req.username, req.password, req.email, req.defaultPincode)]
      && db.nextId == old(db.nextId) + 1
  {
    var existing := FindOne(db.users, db.nextId, ByUsernameOrEmail(req.username, req.email));
    if existing.Some? {
      return Fail(400, "Username or Email already exists");
    }
    if MissingRequired(req) {
      return Fail(500, ServerError);
    }
    var id := db.nextId;
    var u := NewUser(req.name, req.username, req.password, req.email, req.defaultPincode);
    db.users := db.users[id := u];
    db.nextId := db.nextId + 1;
    r := Ok("Registration request sent. Wait for admin approval.", id);
  }

  const UserNotFound := "User not found"
  const NotApproved := "Your account is not approved yet"
  const Banned := "Your account is banned"
  const IncorrectPassword := "Incorrect password"

  /** POST /auth/login. The account is looked up by username; then, in this
      order: unknown gives 404, unapproved 403, banned 403, a wrong password
      400. Only an approved, unbanned account with the matching password gets
      a session, whose token and summary describe that account. */
  function Login(users: map<Id, User>, n: nat, username: string, password: string): (r: Response<Session>)
    ensures r == Fail(404, UserNotFound) <==> forall id :: id < n && id in users ==> users[id].username != username
    ensures r.Ok? ==>
      var id := r.value.token.userId;
      && id < n && id in users
      && users[id].username == username
      && users[id].isApproved && !users[id].isBanned
      && users[id].password == password
      && r.value.token.role == users[id].role
      && r.value.user == PublicUser(id, username, users[id].role)
      && r.message == "Login successful"
  {
    match FindOne(users, n, ByUsername(username))
    case None => Fail(404, UserNotFound)
    case Some(id) =>
      var u := users[id];
      if !u.isApproved then Fail(403, NotApproved)
      else if u.isBanned then Fail(403, Banned)
      else if !ComparePassword(u, password) then Fail(400, IncorrectPassword)
      else Ok("Login successful", Session(Token(id, u.role), PublicUser(id, u.username, u.role)))
  }

  /** The facts the login lemmas rest on, all kept by the database. */
  ghost predicate Lookup(users: map<Id, User>, n: nat) {
    IdsBelow(users, n) && UniqueAccounts(users)
  }

  /** An existing account that is not approved is refused with 403 whatever
      the password, banned or not. */
  lemma LoginUnapproved(users: map<Id, User>, n: nat, id: Id, password: string)
    requires Lookup(users, n) && id in users && !users[id].isApproved
    ensures Login(users, n, users[id].username, password) == Fail(403, NotApproved)
  {
    var found := FindOne(users, n, ByUsername(users[id].username));
    assert found == Some(id);
  }

  /** An approved but banned account is refused with 403 whatever the password. */
  lemma LoginBanned(users: map<Id, User>, n: nat, id: Id, password: string)
    requires Lookup(users, n) && id in users && users[id].isApproved && users[id].isBanned
    ensures Login(users, n, users[id].username, password) == Fail(403, Banned)
  {
    var found := FindOne(users, n, ByUsername(users[id].username));
    assert found == Some(id);
  }

  /** A wrong password is reported (400) exactly when the account exists, is
      approved and is not banned. */
  lemma LoginWrongPassword(users: map<Id, User>, n: nat, username: string, password: string)
    requires Lookup(users, n)
    ensures Login(users, n, username, password) == Fail(400, IncorrectPassword) <==>
      exists id :: id in users && users[id].username == username
        && users[id].isApproved && !users[id].isBanned && users[id].password != password
  {
    match FindOne(users, n, ByUsername(username))
    case None =>
    case Some(k) =>
      if Login(users, n, username, password) == Fail(400, IncorrectPassword) {
        assert users[k].password != password;
      }
  }

  /** Login succeeds exactly for an approved, unbanned account with the
      matching password, and then names that account. */
  lemma LoginSucceedsIff(users: map<Id, User>, n: nat, id: Id, password: string)
    requires Lookup(users, n) && id in users
    ensures Login(users, n, users[id].username, password).Ok? <==>
      users[id].isApproved && !users[id].isBanned && users[id].password == password
    ensures Login(users, n, users[id].username, password).Ok? ==>
      Login(users, n, users[id].username, password).value.token == Token(id, users[id].role)
  {
    var found := FindOne(users, n, ByUsername(users[id].username));
    assert found == Some(id);
  }
}
