/** The public listings page: the search panel's amenity checkboxes, the
    search body it sends, and the click that opens or closes a listing. */
module ListingsPage {
  import opened Wrappers
  import opened Models
  import Text
  import Amenities
  import PropertyRoutes

  /** The filter inputs, each as typed; the amenities as selected. */
  datatype Filters = Filters(
    pincode: string,
    selectedAmenities: seq<string>,
    maxRent: string,
    minBhk: string)

  /** `toggleAmenity` on the selected amenities. */
  function ToggleAmenity(f: Filters, a: string): (g: Filters)
    ensures a in g.selectedAmenities <==> a !in f.selectedAmenities
    ensures forall x :: x != a ==> (x in g.selectedAmenities <==> x in f.selectedAmenities)
    ensures g.(selectedAmenities := f.selectedAmenities) == f
  {
    f.(selectedAmenities := Amenities.Toggle(f.selectedAmenities, a))
  }

  /** The body `handleSearch` sends: an empty input or an empty selection is
      left out, and the maximum rent is sent as `parseInt` of the input
      (`NaN` is sent as `null`, here also `None`). */
  function SearchPayload(f: Filters): (req: PropertyRoutes.SearchRequest)
    ensures req.pincode == (if f.pincode == "" then None else Some(f.pincode))
    ensures req.amenities == (if |f.selectedAmenities| == 0 then None else Some(f.selectedAmenities))
    ensures req.maxRent == (if f.maxRent == "" then None else Text.ParseInt(f.maxRent))
    ensures req.minBhk == (if f.minBhk == "" then None else Some(f.minBhk))
  {
    PropertyRoutes.SearchRequest(
      if f.pincode == "" then None else Some(f.pincode),
      if |f.selectedAmenities| > 0 then Some(f.selectedAmenities) else None,
      if f.maxRent != "" then Text.ParseInt(f.maxRent) else None,
      if f.minBhk != "" then Some(f.minBhk) else None)
  }

  /** What a listing must satisfy to come back from a search the page sends,
      in terms of what was typed: approved; every selected amenity; rent
      within a positive parsed maximum; the exact `bhk` chosen; and a pincode
      in the band of a non-blank, parsable pincode input. */
  lemma SearchFromPage(properties: map<Id, Property>, n: nat, f: Filters, id: Id)
    ensures id in PropertyRoutes.Search(properties, n, SearchPayload(f)) <==>
      && id < n && id in properties
      && properties[id].isApproved
      && (forall a :: a in f.selectedAmenities ==> a in properties[id].amenities)
      && (f.maxRent != "" && Text.ParseInt(f.maxRent).Some? && Text.ParseInt(f.maxRent).value > 0 ==>
            properties[id].rentPerMonth <= Text.ParseInt(f.maxRent).value)
      && (f.minBhk != "" ==> properties[id].bhk == f.minBhk)
      && (Text.Trim(f.pincode) != "" && Text.ParseInt(f.pincode).Some? ==>
            PropertyRoutes.PincodeNear(properties[id].pincode, Text.ParseInt(f.pincode).value))
  {
    PropertyRoutes.SearchIff(properties, n, SearchPayload(f), id);
    if f.pincode == "" {
      assert Text.Trim(f.pincode) == "";
    }
  }

  /** `handleClearFilters`: every filter input emptied, and the list
      reloaded from the approved listings. */
  const ClearedFilters := Filters("", [], "", "")

  /** A search with every filter cleared returns the same list, in the same
      order, as the approved listings the page reloads. */
  lemma ClearedSearchIsApproved(properties: map<Id, Property>, n: nat)
    ensures PropertyRoutes.Search(properties, n, SearchPayload(ClearedFilters)) == PropertyRoutes.Approved(properties, n)
  {
  }

  /** `handlePropertyClick`: clicking the open listing closes it; clicking
      any other opens that one. */
  function Click(selected: Option<Id>, clicked: Id): (next: Option<Id>)
    ensures next.None? <==> selected == Some(clicked)
    ensures next.Some? ==> next.value == clicked
  {
    if selected == Some(clicked) then None else Some(clicked)
  }

  /** Two clicks on the same listing bring the page back to where it was
      when that listing was closed or open to begin with. */
  lemma ClickTwice(selected: Option<Id>, clicked: Id)
    requires selected.None? || selected == Some(clicked)
    ensures Click(Click(selected, clicked), clicked) == selected
  {
  }
}
