/** The two record shapes of the application's database (a user account and a
    property listing), their enumerations and defaults, the token payload the
    login route signs, and the reply of a route handler. */
module Models {
  import opened Wrappers

  /** Record identifiers. Identifiers are handed out in creation order, so a
      larger identifier means a newer record. */
  type Id = nat

  /** The `role` enumeration of a user account. */
  datatype Role = UserRole | AdminRole

  function RoleName(r: Role): string {
    match r
    case UserRole => "user"
    case AdminRole => "admin"
  }

  /** A user account. The password is stored and compared as given. */
  datatype User = User(
    name: string,
    username: string,
    password: string,
    email: string,
    defaultPincode: string,
    rentedPincodes: seq<string>,
    rentedProperties: seq<Id>,
    ownedProperties: seq<Id>,
    role: Role,
    isApproved: bool,
    isBanned: bool)

  /** The record a fresh document gets when only the given fields are set:
      every array empty, `role` user, both flags false. */
  function NewUser(name: string, username: string, password: string, email: string,
                   defaultPincode: string): (u: User)
    ensures u.role == UserRole && !u.isApproved && !u.isBanned
    ensures u.name == name && u.username == username && u.password == password
    ensures u.email == email && u.defaultPincode == defaultPincode
    ensures u.rentedPincodes == [] && u.rentedProperties == [] && u.ownedProperties == []
  {
    User(name, username, password, email, defaultPincode, [], [], [], UserRole, false, false)
  }

  /** `comparePassword`: a plain string comparison, no hashing. */
  predicate ComparePassword(u: User, candidate: string) {
    candidate == u.password
  }

  /** The stored password is accepted, and no other string is: there is no
      hashing, normalisation or trimming between the two. */
  lemma ComparePasswordExact(u: User, candidate: string)
    ensures ComparePassword(u, u.password)
    ensures ComparePassword(u, candidate) ==> candidate == u.password
    ensures candidate != u.password ==> !ComparePassword(u, candidate)
  {
  }

  /** The `type` enumeration of a property. */
  datatype PropertyType = Flat | Bungalow | PinCode

  function TypeName(t: PropertyType): string {
    match t
    case Flat => "flat"
    case Bungalow => "bungalow"
    case PinCode => "pin code"
  }

  /** The enumeration check that saving a property applies to its `type`. */
  function ParseType(s: string): (r: Option<PropertyType>)
    ensures r.Some? <==> s == "flat" || s == "bungalow" || s == "pin code"
    ensures r.Some? ==> TypeName(r.value) == s
  {
    if s == "flat" then Some(Flat)
    else if s == "bungalow" then Some(Bungalow)
    else if s == "pin code" then Some(PinCode)
    else None
  }

  /** Every enumeration value is accepted under its own name. */
  lemma ParseTypeName(t: PropertyType)
    ensures ParseType(TypeName(t)) == Some(t)
  {
  }

  /** A property listing. `propertyType` holds the string that was assigned;
      the database only ever stores one that `ParseType` accepts. Absent
      optional strings are empty. */
  datatype Property = Property(
    name: string,
    address: string,
    propertyType: string,
    pincode: string,
    owner: Id,
    renter: Option<Id>,
    rentPerMonth: int,
    deposit: int,
    photo: string,
    description: string,
    bhk: string,
    amenities: seq<string>,
    isApproved: bool)

  /** The payload of a signed session token. */
  datatype Token = Token(userId: Id, role: Role)

  /** The user summary the login route returns beside the token. */
  datatype PublicUser = PublicUser(id: Id, username: string, role: Role)

  datatype Session = Session(token: Token, user: PublicUser)

  /** A route's reply: status 200 with a message and a value, or an error
      status with its message. */
  datatype Response<+T> = Ok(message: string, value: T) | Fail(status: nat, message: string) {
    function Status(): nat {
      if Ok? then 200 else status
    }
  }

  /** The message of the catch-all 500 reply, given here when the schema
      validation of a save fails. */
  const ServerError := "Server error"
}
