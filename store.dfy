/** The database as the route handlers see it: two collections keyed by record
    identifier, the `findOne` and `find(...).sort({createdAt: -1})` queries
    the handlers issue, and the invariants the collections keep. */
module Store {
  import opened Wrappers
  import opened Models
  import Text

  /** The `findOne` filters used on the user collection. */
  datatype UserQuery = ByUsername(username: string) | ByUsernameOrEmail(username: string, email: string)

  predicate UserMatches(u: User, q: UserQuery) {
    match q
    case ByUsername(name) => u.username == name
    case ByUsernameOrEmail(name, mail) => u.username == name || u.email == mail
  }

  /** `findOne(q)`: the oldest matching user among the identifiers below `n`. */
  function FindOne(users: map<Id, User>, n: nat, q: UserQuery): (r: Option<Id>)
    ensures r.Some? ==> r.value < n && r.value in users && UserMatches(users[r.value], q)
    ensures r.Some? ==> forall id :: id < r.value && id in users ==> !UserMatches(users[id], q)
    ensures r.None? ==> forall id :: id < n && id in users ==> !UserMatches(users[id], q)
  {
    if n == 0 then None
    else
      match FindOne(users, n - 1, q)
      case Some(id) => Some(id)
      case None => if n - 1 in users && UserMatches(users[n - 1], q) then Some(n - 1) else None
  }

  /** An inclusive range of strings under string order (`$gte` / `$lte`). */
  datatype Range = Range(lo: string, hi: string)

  /** A filter on the property collection: each present part must hold. */
  datatype PropertyQuery = PropertyQuery(
    approved: Option<bool>,
    owner: Option<Id>,
    pincode: Option<Range>,
    allAmenities: Option<seq<string>>,
    maxRent: Option<int>,
    bhk: Option<string>)

  const AnyProperty := PropertyQuery(None, None, None, None, None, None)

  /** The pincode range test of a query. A property without a pincode (the
      empty string here) fails it, as the lower bound is never empty. */
  predicate InRange(pincode: string, r: Range) {
    pincode != [] && Text.LexLe(r.lo, pincode) && Text.LexLe(pincode, r.hi)
  }

  predicate PropertyMatches(p: Property, q: PropertyQuery) {
    && (q.approved.Some? ==> p.isApproved == q.approved.value)
    && (q.owner.Some? ==> p.owner == q.owner.value)
    && (q.pincode.Some? ==> InRange(p.pincode, q.pincode.value))
    && (q.allAmenities.Some? ==> forall a :: a in q.allAmenities.value ==> a in p.amenities)
    && (q.maxRent.Some? ==> p.rentPerMonth <= q.maxRent.value)
    && (q.bhk.Some? ==> p.bhk == q.bhk.value)
  }

  /** Newest first: strictly decreasing identifiers. */
  predicate NewestFirst(ids: seq<Id>) {
    forall i, j :: 0 <= i < j < |ids| ==> ids[i] > ids[j]
  }

  /** `find(q).sort({createdAt: -1})` over the identifiers below `n`: exactly
      the matching properties, newest first. */
  function Find(properties: map<Id, Property>, n: nat, q: PropertyQuery): (r: seq<Id>)
    ensures forall i :: 0 <= i < |r| ==> r[i] < n && r[i] in properties && PropertyMatches(properties[r[i]], q)
    ensures forall id :: id < n && id in properties && PropertyMatches(properties[id], q) ==> id in r
    ensures NewestFirst(r)
  {
    if n == 0 then []
    else
      var older := Find(properties, n - 1, q);
      if n - 1 in properties && PropertyMatches(properties[n - 1], q) then [n - 1] + older else older
  }

  /** Every record identifier is below the next one to be handed out. */
  ghost predicate IdsBelow<T>(m: map<Id, T>, n: nat) {
    forall id :: id in m ==> id < n
  }

  /** No two accounts share a username or an email (the schema's unique indexes). */
  ghost predicate UniqueAccounts(users: map<Id, User>) {
    forall i, j :: i in users && j in users && i != j ==>
      users[i].username != users[j].username && users[i].email != users[j].email
  }

  /** Every stored property passed the schema's `type` enumeration. */
  ghost predicate TypesValid(properties: map<Id, Property>) {
    forall id :: id in properties ==> ParseType(properties[id].propertyType).Some?
  }

  /** The in-memory database: the user and property collections and the
      counter that hands out identifiers in creation order. */
  class Db {
    var users: map<Id, User>
    var properties: map<Id, Property>
    var nextId: nat

    ghost predicate Valid()
      reads this
    {
      && IdsBelow(users, nextId)
      && IdsBelow(properties, nextId)
      && UniqueAccounts(users)
      && TypesValid(properties)
    }

    constructor ()
      ensures Valid()
      ensures users == map[] && properties == map[] && nextId == 0
    {
      users := map[];
      properties := map[];
      nextId := 0;
    }
  }

  /** What every handler keeps of a user record it touches: identity, secret
      and role never change, and approval is never withdrawn. */
  ghost predicate UsersEvolve(before: map<Id, User>, after: map<Id, User>) {
    && before.Keys <= after.Keys
    && forall id :: id in before ==>
         && after[id].name == before[id].name
         && after[id].username == before[id].username
         && after[id].email == before[id].email
         && after[id].password == before[id].password
         && after[id].role == before[id].role
         && (before[id].isApproved ==> after[id].isApproved)
  }

  /** What every handler keeps of a property record that survives it: the
      owner and renter never change, and approval is never withdrawn. */
  ghost predicate PropertiesEvolve(before: map<Id, Property>, after: map<Id, Property>) {
    forall id :: id in before && id in after ==>
      && after[id].owner == before[id].owner
      && after[id].renter == before[id].renter
      && (before[id].isApproved ==> after[id].isApproved)
  }
}
