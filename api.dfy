/**
 * The client library (src/lib/api.ts): `fetchNearbyBusinesses` and
 * `getBusinesses`, which turns each `NearbyBusiness` into a `Business` with
 * defaulted fields. The HTTP response is an input: `None` stands for a non-OK
 * status or a thrown exception.
 */
module Api {
  import opened Wrappers
  import opened Seqs
  import opened Types

  /** `fetchNearbyBusinesses`: the parsed body, or `[]` on any failure. */
  function FetchNearbyBusinesses(response: Option<seq<NearbyBusiness>>): (r: seq<NearbyBusiness>)
    ensures response.None? ==> r == []
    ensures response.Some? ==> r == response.value
  {
    response.GetOr([])
  }

  /** JavaScript truthiness of an optional number: `undefined` and `0` are falsy. */
  predicate Truthy(x: Option<real>)
  {
    x.Some? && x.value != 0.0
  }

  /**
   * The record built for one `NearbyBusiness`. `fallbackId` stands for the random
   * `business_<random>` id used when `place_id` is empty.
   */
  function ToBusiness(nb: NearbyBusiness, fallbackId: string): (b: Business)
    ensures ConvertedFrom(b, nb)
  {
    Business(
      id := if nb.placeId != "" then nb.placeId else fallbackId,
      name := nb.name,
      category := nb.category,
      description := nb.category + " business",
      address := nb.address.GetOr(""),
      phone := "",
      email := "",
      website := "",
      image := "",
      rating := nb.rating,
      reviewCount := 0,
      priceRange := OneRupee,
      hours := map[],
      operatingHours := if nb.openNow then "Open now" else "Closed",
      amenities := [],
      studentDiscount := false,
      latitude := nb.lat,
      longitude := nb.lng,
      nearbyInstitutions := [],
      photos := [])
  }

  /**
   * What a `Business` still says about the `NearbyBusiness` it came from: everything
   * but the distance, with an empty address read as no address.
   */
  function BackToNearby(b: Business): NearbyBusiness
  {
    NearbyBusiness(
      name := b.name,
      category := b.category,
      openNow := b.operatingHours == "Open now",
      rating := b.rating,
      address := if b.address == "" then None else Some(b.address),
      distance := 0,
      lat := b.latitude,
      lng := b.longitude,
      placeId := b.id)
  }

  /** `nb.address || ''` read back: an empty address and a missing one are the same. */
  function NormalAddress(a: Option<string>): Option<string>
  {
    if a == Some("") then None else a
  }

  /**
   * The conversion loses only the distance and the difference between an empty and a
   * missing address; every other field of the source record can be read back.
   */
  lemma ToBusinessRoundTrip(nb: NearbyBusiness, fallbackId: string)
    requires nb.placeId != ""
    ensures BackToNearby(ToBusiness(nb, fallbackId)) == nb.(distance := 0, address := NormalAddress(nb.address))
  {
  }

  /** The constant defaults every converted record carries. */
  predicate HasDefaults(b: Business)
  {
    && b.phone == "" && b.email == "" && b.website == "" && b.image == ""
    && b.reviewCount == 0 && b.priceRange == OneRupee && !b.studentDiscount
    && b.hours == map[] && b.amenities == [] && b.nearbyInstitutions == [] && b.photos == []
  }

  /** What `b` keeps of `nb`: copied fields, the derived description, address and hours, and the defaults. */
  predicate ConvertedFrom(b: Business, nb: NearbyBusiness)
  {
    && HasDefaults(b)
    && b.name == nb.name && b.category == nb.category && b.rating == nb.rating
    && b.latitude == nb.lat && b.longitude == nb.lng
    && b.description == nb.category + " business"
    && b.address == nb.address.GetOr("")
    && (b.operatingHours == "Open now" <==> nb.openNow)
    && (nb.placeId != "" ==> b.id == nb.placeId)
  }

  /**
   * `getBusinesses(lat, lng)`: `[]` without fetching when either coordinate is falsy,
   * otherwise the fetched list converted one to one, in order. `randomId(i)` stands
   * for the random id drawn for the i-th record.
   */
  function GetBusinesses(lat: Option<real>, lng: Option<real>, response: Option<seq<NearbyBusiness>>,
                         randomId: nat -> string): (r: seq<Business>)
    ensures !Truthy(lat) || !Truthy(lng) ==> r == []
    ensures Truthy(lat) && Truthy(lng) ==> |r| == |FetchNearbyBusinesses(response)|
    ensures forall i :: 0 <= i < |r| ==> ConvertedFrom(r[i], FetchNearbyBusinesses(response)[i])
  {
    if !Truthy(lat) || !Truthy(lng) then []
    else
      var nbs := FetchNearbyBusinesses(response);
      var r := seq(|nbs|, i requires 0 <= i < |nbs| => ToBusiness(nbs[i], randomId(i)));
      assert forall i :: 0 <= i < |r| ==> r[i] == ToBusiness(nbs[i], randomId(i));
      r
  }
}
