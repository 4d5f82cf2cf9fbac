/** The `/property` routes: submitting a listing, the admin's pending list,
    approval and rejection, the public approved list and search, the owner's
    own list, lookup by identifier, and the owner's edit of a listing that is
    not yet approved. */
module PropertyRoutes {
  import opened Wrappers
  import opened Models
  import opened Store
  import Text

  /** The fields a submit or edit request may carry. An absent string is
      empty and an absent number is zero, both falsy; `amenities` is absent
      or an array, and an array, even an empty one, is truthy. */
  datatype PropertyBody = PropertyBody(
    name: string,
    address: string,
    propertyType: string,
    pincode: string,
    rentPerMonth: int,
    deposit: int,
    photo: string,
    description: string,
    bhk: string,
    amenities: Option<seq<string>>)

  /** One of the five fields the submit route insists on is falsy. */
  predicate MissingRequired(b: PropertyBody) {
    b.name == "" || b.address == "" || b.propertyType == "" || b.rentPerMonth == 0 || b.deposit == 0
  }

  /** The record a submit creates: owned by the caller, unapproved, with no
      renter, the amenities given or none, every other field as given. */
  function NewProperty(b: PropertyBody, owner: Id): (p: Property)
    ensures p.owner == owner && !p.isApproved && p.renter == None
    ensures p.amenities == (if b.amenities.Some? then b.amenities.value else [])
    ensures p.name == b.name && p.address == b.address && p.propertyType == b.propertyType
    ensures p.pincode == b.pincode && p.rentPerMonth == b.rentPerMonth && p.deposit == b.deposit
    ensures p.photo == b.photo && p.description == b.description && p.bhk == b.bhk
  {
    Property(b.name, b.address, b.propertyType, b.pincode, owner, None, b.rentPerMonth, b.deposit,
             b.photo, b.description, b.bhk, b.amenities.GetOr([]), false)
  }

  /** POST /property/register, for any authenticated caller. A falsy required
      field answers 400 and a `type` outside the enumeration 500, both
      without change; otherwise one unapproved listing owned by the caller is
      added. The caller's account is not touched. */
  method SubmitProperty(db: Db, caller: Token, b: PropertyBody) returns (r: Response<Id>)
    requires db.Valid()
    modifies db
    ensures db.Valid()
    ensures db.users == old(db.users)
    ensures PropertiesEvolve(old(db.properties), db.properties)
    ensures MissingRequired(b) ==>
      r == Fail(400, "All required fields must be filled")
      && db.properties == old(db.properties) && db.nextId == old(db.nextId)
    ensures !MissingRequired(b) && ParseType(b.propertyType).None? ==>
      r == Fail(500, ServerError) && db.properties == old(db.properties) && db.nextId == old(db.nextId)
    ensures !MissingRequired(b) && ParseType(b.propertyType).Some? ==>
      && r == Ok("Property registered successfully. Waiting for admin approval.", old(db.nextId))
      && old(db.nextId) !in old(db.properties)
      && db.properties == old(db.properties)[old(db.nextId) := NewProperty(b, caller.userId)]
      && db.nextId == old(db.nextId) + 1
  {
    if MissingRequired(b) {
      return Fail(400, "All required fields must be filled");
    }
    if ParseType(b.propertyType).None? {
      return Fail(500, ServerError);
    }
    var id := db.nextId;
    db.properties := db.properties[id := NewProperty(b, caller.userId)];
    db.nextId := db.nextId + 1;
    r := Ok("Property registered successfully. Waiting for admin approval.", id);
  }

  /** GET /property/pending, admin only: exactly the unapproved listings, newest first. */
  function Pending(properties: map<Id, Property>, n: nat, caller: Token): (r: seq<Id>)
    requires caller.role == AdminRole
    ensures forall id :: id in r <==> id < n && id in properties && !properties[id].isApproved
    ensures NewestFirst(r)
  {
    Find(properties, n, AnyProperty.(approved := Some(false)))
  }

  /** GET /property/approved, public: exactly the approved listings, newest first. */
  function Approved(properties: map<Id, Property>, n: nat): (r: seq<Id>)
    ensures forall id :: id in r <==> id < n && id in properties && properties[id].isApproved
    ensures NewestFirst(r)
  {
    Find(properties, n, AnyProperty.(approved := Some(true)))
  }

  /** GET /property/my-properties: exactly the caller's listings, approved or
      not, newest first. */
  function MyProperties(properties: map<Id, Property>, n: nat, caller: Token): (r: seq<Id>)
    ensures forall id :: id in r <==> id < n && id in properties && properties[id].owner == caller.userId
    ensures NewestFirst(r)
  {
    Find(properties, n, AnyProperty.(owner := Some(caller.userId)))
  }

  /** GET /property/:propertyId, public: the listing, approved or not, or 404. */
  function GetById(properties: map<Id, Property>, id: Id): (r: Response<Property>)
    ensures r.Ok? <==> id in properties
    ensures r.Ok? ==> r.value == properties[id]
    ensures r.Fail? ==> r == Fail(404, "Property not found")
  {
    if id in properties then Ok("", properties[id]) else Fail(404, "Property not found")
  }

  /** The body of a search request; a field the client leaves out is `None`. */
  datatype SearchRequest = SearchRequest(
    pincode: Option<string>,
    amenities: Option<seq<string>>,
    maxRent: Option<int>,
    minBhk: Option<string>)

  /** The pincode the band is centred on: present only when the request's
      pincode is not blank and `parseInt` finds a number in it. */
  function SearchPincode(req: SearchRequest): (r: Option<int>)
    ensures r.Some? ==> req.pincode.Some? && Text.ParseInt(req.pincode.value) == r
    ensures r.None? <==> req.pincode.None? || Text.Trim(req.pincode.value) == "" || Text.ParseInt(req.pincode.value).None?
  {
    if req.pincode.Some? && Text.Trim(req.pincode.value) != "" then Text.ParseInt(req.pincode.value) else None
  }

  /** The band test: `p - 2` and `p + 2` are written out in decimal and the
      listing's pincode must lie between them in string order. */
  predicate PincodeNear(pincode: string, p: int) {
    InRange(pincode, Range(Text.IntToString(p - 2), Text.IntToString(p + 2)))
  }

  /** The query the search route builds, one filter at a time. */
  function SearchQuery(req: SearchRequest): (q: PropertyQuery)
    ensures q.approved == Some(true) && q.owner == None
    ensures q.pincode.Some? <==> SearchPincode(req).Some?
    ensures q.allAmenities.Some? <==> req.amenities.Some? && |req.amenities.value| > 0
    ensures q.maxRent.Some? <==> req.maxRent.Some? && req.maxRent.value > 0
    ensures q.bhk.Some? <==> req.minBhk.Some? && req.minBhk.value != ""
  {
    var q := AnyProperty.(approved := Some(true));
    var q := match SearchPincode(req)
      case Some(p) => q.(pincode := Some(Range(Text.IntToString(p - 2), Text.IntToString(p + 2))))
      case None => q;
    var q := if req.amenities.Some? && |req.amenities.value| > 0 then q.(allAmenities := req.amenities) else q;
    var q := if req.maxRent.Some? && req.maxRent.value > 0 then q.(maxRent := req.maxRent) else q;
    if req.minBhk.Some? && req.minBhk.value != "" then q.(bhk := req.minBhk) else q
  }

  /** POST /property/search, public. */
  function Search(properties: map<Id, Property>, n: nat, req: SearchRequest): (r: seq<Id>)
    ensures NewestFirst(r)
    ensures forall id :: id in r ==> id < n && id in properties && properties[id].isApproved
  {
    Find(properties, n, SearchQuery(req))
  }

  /** What a search promises of a listing, filter by filter: it is approved;
      it holds every requested amenity; its rent is within a positive maximum;
      its `bhk` is the requested one, compared for equality; and its pincode
      is in the band of a parsable pincode. An empty, zero or unparsable
      filter constrains nothing. */
  ghost predicate SatisfiesSearch(p: Property, req: SearchRequest) {
    && p.isApproved
    && (req.amenities.Some? ==> forall a :: a in req.amenities.value ==> a in p.amenities)
    && (req.maxRent.Some? && req.maxRent.value > 0 ==> p.rentPerMonth <= req.maxRent.value)
    && (req.minBhk.Some? && req.minBhk.value != "" ==> p.bhk == req.minBhk.value)
    && (SearchPincode(req).Some? ==> PincodeNear(p.pincode, SearchPincode(req).value))
  }

  /** The search returns exactly the listings that satisfy every active filter. */
  lemma SearchIff(properties: map<Id, Property>, n: nat, req: SearchRequest, id: Id)
    ensures id in Search(properties, n, req) <==>
      id < n && id in properties && SatisfiesSearch(properties[id], req)
  {
    var q := SearchQuery(req);
    if id < n && id in properties {
      var p := properties[id];
      assert PropertyMatches(p, q) <==> SatisfiesSearch(p, req);
    }
  }

  /** On pincodes written with the same number of digits as both ends of the
      band, the string band is the numeric band `[p - 2, p + 2]`. */
  lemma PincodeNearIsNumeric(pincode: string, p: int)
    requires p >= 2 && Text.AllDigits(pincode)
    requires |Text.DigitsOf(p - 2)| == |pincode| == |Text.DigitsOf(p + 2)|
    ensures PincodeNear(pincode, p) <==> p - 2 <= Text.ValueOf(pincode) <= p + 2
  {
    Text.LexLeIsNumeric(Text.DigitsOf(p - 2), pincode);
    Text.LexLeIsNumeric(pincode, Text.DigitsOf(p + 2));
  }

  /** An approved listing that differs from the others only in its pincode. */
  function ListingAt(pincode: string): Property {
    Property("Flat", "Street", "flat", pincode, 0, None, 10000, 20000, "", "", "1BHK", [], true)
  }

  lemma FourDigits()
    ensures Text.DigitsOf(1000) == "1000"
  {
    assert Text.DigitsOf(1) == "1";
    assert Text.DigitsOf(10) == "10";
    assert Text.DigitsOf(100) == "100";
  }

  /** Around 10003 the band holds the five-digit pincodes 10001..10005. */
  lemma BandAround10003(pincode: string)
    requires Text.AllDigits(pincode) && |pincode| == 5
    ensures PincodeNear(pincode, 10003) <==> 10001 <= Text.ValueOf(pincode) <= 10005
  {
    FourDigits();
    assert |Text.DigitsOf(10001)| == 5 && |Text.DigitsOf(10005)| == 5;
    PincodeNearIsNumeric(pincode, 10003);
  }

  /** The value of "1000" followed by one more digit. */
  lemma ValueAfter1000(pincode: string)
    requires |pincode| == 5 && pincode[..4] == "1000" && Text.IsDigit(pincode[4])
    ensures Text.AllDigits(pincode)
    ensures Text.ValueOf(pincode) == 10000 + Text.DigitValue(pincode[4])
  {
    FourDigits();
    assert Text.ValueOf(pincode[..4]) == 1000;
  }

  /** Listings at pincodes 10001, 10002, 10005 and 10006, created in that
      order: a search for pincode 10003 finds the first three (the band is
      inclusive at both ends), newest first. */
  lemma SearchByPincodeExample(properties: map<Id, Property>, req: SearchRequest)
    requires properties == map[0 := ListingAt("10001"), 1 := ListingAt("10002"), 2 := ListingAt("10005"), 3 := ListingAt("10006")]
    requires req == SearchRequest(Some("10003"), None, None, None)
    ensures Search(properties, 4, req) == [2, 1, 0]
  {
    QueryOf10003(req);
    ExampleMatches(properties, SearchQuery(req));
    FindFirstThreeOfFour(properties, SearchQuery(req));
  }

  /** The query for pincode 10003 is the approved listings in the band
      "10001".."10005". */
  lemma QueryOf10003(req: SearchRequest)
    requires req == SearchRequest(Some("10003"), None, None, None)
    ensures SearchQuery(req) == AnyProperty.(approved := Some(true), pincode := Some(Range("10001", "10005")))
  {
    SearchPincodeOf10003();
    FourDigits();
    assert Text.IntToString(10001) == "10001" && Text.IntToString(10005) == "10005";
  }

  lemma ExampleMatches(properties: map<Id, Property>, q: PropertyQuery)
    requires properties == map[0 := ListingAt("10001"), 1 := ListingAt("10002"), 2 := ListingAt("10005"), 3 := ListingAt("10006")]
    requires q == AnyProperty.(approved := Some(true), pincode := Some(Range("10001", "10005")))
    ensures 0 in properties && 1 in properties && 2 in properties && 3 in properties
    ensures PropertyMatches(properties[0], q) && PropertyMatches(properties[1], q)
    ensures PropertyMatches(properties[2], q) && !PropertyMatches(properties[3], q)
  {
    ListingMatches10003("10001", q);
    ListingMatches10003("10002", q);
    ListingMatches10003("10005", q);
    ListingMatches10003("10006", q);
  }

  lemma FindFirstThreeOfFour(properties: map<Id, Property>, q: PropertyQuery)
    requires 0 in properties && 1 in properties && 2 in properties && 3 in properties
    requires PropertyMatches(properties[0], q) && PropertyMatches(properties[1], q)
    requires PropertyMatches(properties[2], q) && !PropertyMatches(properties[3], q)
    ensures Find(properties, 4, q) == [2, 1, 0]
  {
    assert Find(properties, 1, q) == [0];
    assert Find(properties, 2, q) == [1, 0];
  }

  lemma ListingMatches10003(pincode: string, q: PropertyQuery)
    requires |pincode| == 5 && pincode[..4] == "1000" && Text.IsDigit(pincode[4])
    requires q == AnyProperty.(approved := Some(true), pincode := Some(Range("10001", "10005")))
    ensures PropertyMatches(ListingAt(pincode), q) <==> '1' <= pincode[4] <= '5'
  {
    FourDigits();
    assert Text.IntToString(10001) == "10001" && Text.IntToString(10005) == "10005";
    ValueAfter1000(pincode);
    BandAround10003(pincode);
  }

  lemma SearchPincodeOf10003()
    ensures SearchPincode(SearchRequest(Some("10003"), None, None, None)) == Some(10003)
  {
    assert Text.IntToString(10003) + "" == "10003" by {
      FourDigits();
    }
    Text.ParseIntOfToString(10003, "");
    Text.TrimEmptyIff("10003");
  }

  /** Where `p + 2` has one digit more than `p - 2` the band is empty: the
      lower bound starts with a larger digit than the upper one, so no
      string lies between them (a search for pincode 8 gives "6".."10", and
      one for 99998 gives "99996".."100000"). */
  lemma PincodeBandEmptyAtCarry(pincode: string, p: int)
    requires p >= 2
    requires |Text.IntToString(p - 2)| < |Text.IntToString(p + 2)|
    ensures !PincodeNear(pincode, p)
  {
    var lo, hi := Text.IntToString(p - 2), Text.IntToString(p + 2);
    assert lo == Text.DigitsOf(p - 2) && hi == Text.DigitsOf((p - 2) + 4);
    Text.CarryLeadingDigits(p - 2);
    if PincodeNear(pincode, p) {
      Text.LexLeHead(lo, pincode);
      Text.LexLeHead(pincode, hi);
      assert false;
    }
  }

  /** POST /property/approve/:propertyId, admin only. An unknown identifier
      answers 404 and changes nothing; otherwise only that listing's
      `isApproved` becomes true, and approving it again changes nothing. */
  method ApproveProperty(db: Db, caller: Token, id: Id) returns (r: Response<()>)
    requires caller.role == AdminRole
    requires db.Valid()
    modifies db
    ensures db.Valid()
    ensures db.users == old(db.users) && db.nextId == old(db.nextId)
    ensures PropertiesEvolve(old(db.properties), db.properties)
    ensures id !in old(db.properties) ==> r == Fail(404, "Property not found") && db.properties == old(db.properties)
    ensures id in old(db.properties) ==>
      && r == Ok("Property approved successfully", ())
      && db.properties == old(db.properties)[id := old(db.properties)[id].(isApproved := true)]
    ensures id in old(db.properties) && old(db.properties)[id].isApproved ==> db.properties == old(db.properties)
  {
    if id !in db.properties {
      return Fail(404, "Property not found");
    }
    var p := db.properties[id];
    p := p.(isApproved := true);
    db.properties := db.properties[id := p];
    r := Ok("Property approved successfully", ());
  }

  /** DELETE /property/reject/:propertyId, admin only. An unknown identifier
      answers 404; otherwise exactly that listing is removed, approved or not. */
  method RejectProperty(db: Db, caller: Token, id: Id) returns (r: Response<()>)
    requires caller.role == AdminRole
    requires db.Valid()
    modifies db
    ensures db.Valid()
    ensures db.users == old(db.users) && db.nextId == old(db.nextId)
    ensures PropertiesEvolve(old(db.properties), db.properties)
    ensures id !in old(db.properties) ==> r == Fail(404, "Property not found") && db.properties == old(db.properties)
    ensures id in old(db.properties) ==>
      r == Ok("Property rejected and deleted", ()) && db.properties == old(db.properties) - {id}
  {
    if id !in db.properties {
      return Fail(404, "Property not found");
    }
    db.properties := db.properties - {id};
    r := Ok("Property rejected and deleted", ());
  }

  /** `if (x) field = x` for a string field. */
  function PickString(given: string, current: string): string {
    if given != "" then given else current
  }

  /** `if (x) field = x` for a number field. */
  function PickNumber(given: int, current: int): int {
    if given != 0 then given else current
  }

  /** The listing after an edit: each field the request gives a truthy value
      is overwritten, every other field is kept. */
  function Patched(p: Property, b: PropertyBody): (q: Property)
    ensures q.owner == p.owner && q.renter == p.renter && q.isApproved == p.isApproved
  {
    Property(
      PickString(b.name, p.name),
      PickString(b.address, p.address),
      PickString(b.propertyType, p.propertyType),
      PickString(b.pincode, p.pincode),
      p.owner,
      p.renter,
      PickNumber(b.rentPerMonth, p.rentPerMonth),
      PickNumber(b.deposit, p.deposit),
      PickString(b.photo, p.photo),
      PickString(b.description, p.description),
      PickString(b.bhk, p.bhk),
      b.amenities.GetOr(p.amenities),
      p.isApproved)
  }

  const EmptyBody := PropertyBody("", "", "", "", 0, 0, "", "", "", None)

  /** An edit with no truthy field leaves the listing as it was, and applying
      the same edit twice is applying it once. */
  lemma PatchedNeutralAndIdempotent(p: Property, b: PropertyBody)
    ensures Patched(p, EmptyBody) == p
    ensures Patched(Patched(p, b), b) == Patched(p, b)
  {
  }

  /** The edit route's chain of `if (x) property.x = x` assignments. */
  method Assign(p: Property, b: PropertyBody) returns (q: Property)
    ensures q == Patched(p, b)
  {
    q := AssignWhere(p, b);
    q := AssignTerms(q, b);
    q := AssignDetails(q, b);
  }

  /** The assignments to `name`, `address`, `type` and `pincode`. */
  method AssignWhere(p: Property, b: PropertyBody) returns (q: Property)
    ensures q == p.(name := PickString(b.name, p.name), address := PickString(b.address, p.address),
                    propertyType := PickString(b.propertyType, p.propertyType),
                    pincode := PickString(b.pincode, p.pincode))
  {
    q := p;
    if b.name != "" { q := q.(name := b.name); }
    if b.address != "" { q := q.(address := b.address); }
    if b.propertyType != "" { q := q.(propertyType := b.propertyType); }
    if b.pincode != "" { q := q.(pincode := b.pincode); }
  }

  /** The assignments to `rentPerMonth` and `deposit`. */
  method AssignTerms(p: Property, b: PropertyBody) returns (q: Property)
    ensures q == p.(rentPerMonth := PickNumber(b.rentPerMonth, p.rentPerMonth),
                    deposit := PickNumber(b.deposit, p.deposit))
  {
    q := p;
    if b.rentPerMonth != 0 { q := q.(rentPerMonth := b.rentPerMonth); }
    if b.deposit != 0 { q := q.(deposit := b.deposit); }
  }

  /** The assignments to `photo`, `description`, `bhk` and `amenities`. */
  method AssignDetails(p: Property, b: PropertyBody) returns (q: Property)
    ensures q == p.(photo := PickString(b.photo, p.photo), description := PickString(b.description, p.description),
                    bhk := PickString(b.bhk, p.bhk), amenities := b.amenities.GetOr(p.amenities))
  {
    q := p;
    if b.photo != "" { q := q.(photo := b.photo); }
    if b.description != "" { q := q.(description := b.description); }
    if b.bhk != "" { q := q.(bhk := b.bhk); }
    if b.amenities.Some? { q := q.(amenities := b.amenities.value); }
  }

  /** PUT /property/:propertyId, for an authenticated caller. In this order:
      an unknown identifier answers 404, a caller who is not the owner 403, an
      approved listing 403, and a `type` outside the enumeration 500, each
      without change. Otherwise the listing becomes `Patched(old, b)`. */
  method UpdateProperty(db: Db, caller: Token, id: Id, b: PropertyBody) returns (r: Response<()>)
    requires db.Valid()
    modifies db
    ensures db.Valid()
    ensures db.users == old(db.users) && db.nextId == old(db.nextId)
    ensures PropertiesEvolve(old(db.properties), db.properties)
    ensures r.Fail? ==> db.properties == old(db.properties)
    ensures id !in old(db.properties) ==> r == Fail(404, "Property not found")
    ensures id in old(db.properties) && old(db.properties)[id].owner != caller.userId ==>
      r == Fail(403, "Only property owner can update")
    ensures id in old(db.properties) && old(db.properties)[id].owner == caller.userId && old(db.properties)[id].isApproved ==>
      r == Fail(403, "Cannot update approved property")
    ensures id in old(db.properties) && old(db.properties)[id].owner == caller.userId && !old(db.properties)[id].isApproved ==>
      if b.propertyType != "" && ParseType(b.propertyType).None? then r == Fail(500, ServerError)
      else r == Ok("Property updated successfully", ())
           && db.properties == old(db.properties)[id := Patched(old(db.properties)[id], b)]
  {
    if id !in db.properties {
      return Fail(404, "Property not found");
    }
    var p := db.properties[id];
    if p.owner != caller.userId {
      return Fail(403, "Only property owner can update");
    }
    if p.isApproved {
      return Fail(403, "Cannot update approved property");
    }
    p := Assign(p, b);
    if ParseType(p.propertyType).None? {
      return Fail(500, ServerError);
    }
    db.properties := db.properties[id := p];
    r := Ok("Property updated successfully", ());
  }
}
