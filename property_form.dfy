/** The property submission page: its form state and defaults, the
    client-side check, the amenity checkboxes, the request body, and what the
    page shows once the server has answered. */
module PropertyForm {
  import opened Wrappers
  import opened Models
  import Text
  import Amenities
  import PropertyRoutes

  /** The form. A number input is `None` while empty; the photo is an opaque
      string, `None` until a file is chosen. */
  datatype Form = Form(
    name: string,
    address: string,
    propertyType: string,
    pincode: string,
    bhk: string,
    rentPerMonth: Option<int>,
    deposit: Option<int>,
    description: string,
    amenities: seq<string>,
    photo: Option<string>)

  /** The state the form starts in and returns to after a successful submit. */
  const InitialForm := Form("", "", "flat", "", "1BHK", None, None, "", [], None)

  datatype Page = Page(form: Form, error: string, success: string)

  /** A number input holding a positive value (`x && x > 0`). */
  predicate Positive(x: Option<int>) {
    x.Some? && x.value > 0
  }

  /** A chosen, non-empty photo. */
  predicate HasPhoto(photo: Option<string>) {
    photo.Some? && photo.value != ""
  }

  /** `validateForm`: the first failing check's message, or `None`. */
  function Validate(f: Form): (error: Option<string>)
    ensures error.None? <==>
      Text.Trim(f.name) != "" && Text.Trim(f.address) != ""
      && Positive(f.rentPerMonth) && Positive(f.deposit) && HasPhoto(f.photo)
    ensures Text.Trim(f.name) == "" ==> error == Some("Property name is required")
    ensures Text.Trim(f.name) != "" && Text.Trim(f.address) == "" ==> error == Some("Address is required")
    ensures Text.Trim(f.name) != "" && Text.Trim(f.address) != "" && !Positive(f.rentPerMonth) ==>
      error == Some("Valid rent is required")
    ensures (Text.Trim(f.name) != "" && Text.Trim(f.address) != "" && Positive(f.rentPerMonth)
             && !Positive(f.deposit)) ==> error == Some("Valid deposit is required")
    ensures (Text.Trim(f.name) != "" && Text.Trim(f.address) != "" && Positive(f.rentPerMonth)
             && Positive(f.deposit) && !HasPhoto(f.photo)) ==> error == Some("Property photo is required")
  {
    if Text.Trim(f.name) == "" then Some("Property name is required")
    else if Text.Trim(f.address) == "" then Some("Address is required")
    else if !Positive(f.rentPerMonth) then Some("Valid rent is required")
    else if !Positive(f.deposit) then Some("Valid deposit is required")
    else if !HasPhoto(f.photo) then Some("Property photo is required")
    else None
  }

  /** `handleAmenityChange`: toggles one amenity and nothing else. */
  function ToggleAmenity(f: Form, a: string): (g: Form)
    ensures a in g.amenities <==> a !in f.amenities
    ensures forall x :: x != a ==> (x in g.amenities <==> x in f.amenities)
    ensures g.(amenities := f.amenities) == f
  {
    f.(amenities := Amenities.Toggle(f.amenities, a))
  }

  /** The body `handleSubmit` sends: the whole form, an empty number input
      or a missing photo being falsy. */
  function Body(f: Form): (b: PropertyRoutes.PropertyBody)
    ensures b.name == f.name && b.address == f.address && b.propertyType == f.propertyType
    ensures b.pincode == f.pincode && b.bhk == f.bhk && b.description == f.description
    ensures b.photo == f.photo.GetOr("")
    ensures b.amenities == Some(f.amenities)
    ensures Positive(f.rentPerMonth) ==> b.rentPerMonth == f.rentPerMonth.value
    ensures Positive(f.deposit) ==> b.deposit == f.deposit.value
  {
    PropertyRoutes.PropertyBody(f.name, f.address, f.propertyType, f.pincode, f.rentPerMonth.GetOr(0),
                                f.deposit.GetOr(0), f.photo.GetOr(""), f.description, f.bhk, Some(f.amenities))
  }

  /** A form that passes the client-side check and whose type comes from the
      type selector passes every check of the submit route. */
  lemma ValidFormIsAccepted(f: Form)
    requires Validate(f).None?
    requires f.propertyType in ["flat", "bungalow", "pin code"]
    ensures !PropertyRoutes.MissingRequired(Body(f))
    ensures ParseType(Body(f).propertyType).Some?
  {
  }

  /** `handleSubmit`, given the reply the server would send. An invalid form
      shows its error; a refused request shows the server's message (or a
      fallback) and keeps the form; an accepted one shows the message and
      resets the form to type flat, 1BHK, no amenities and no photo. */
  function HandleSubmit(page: Page, reply: Response<Id>): (next: Page)
    ensures Validate(page.form).Some? ==> next == page.(error := Validate(page.form).value)
    ensures Validate(page.form).None? && reply.Fail? ==>
      && next.form == page.form && next.success == page.success && next.error != ""
      && next.error == (if reply.message != "" then reply.message else "Failed to register property")
    ensures Validate(page.form).None? && reply.Ok? ==>
      && next.success == reply.message && next.error == page.error
      && next.form.propertyType == "flat" && next.form.bhk == "1BHK"
      && next.form.amenities == [] && next.form.photo.None?
      && next.form == InitialForm
  {
    match Validate(page.form)
    case Some(message) => page.(error := message)
    case None =>
      if reply.Fail? then page.(error := if reply.message != "" then reply.message else "Failed to register property")
      else page.(form := InitialForm, success := reply.message)
  }
}
