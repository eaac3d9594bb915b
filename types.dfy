/** The front end's record shapes (src/lib/types.ts) and the raw OpenStreetMap element. */
module Types {
  import opened Wrappers

  datatype PriceRange = OneRupee | TwoRupees | ThreeRupees | FourRupees

  /** A listed business as the pages display it. */
  datatype Business = Business(
    id: string,
    name: string,
    category: string,
    description: string,
    address: string,
    phone: string,
    email: string,
    website: string,
    image: string,
    rating: real,
    reviewCount: nat,
    priceRange: PriceRange,
    hours: map<string, string>,
    operatingHours: string,
    amenities: seq<string>,
    studentDiscount: bool,
    latitude: real,
    longitude: real,
    nearbyInstitutions: seq<string>,
    photos: seq<string>)

  /** The wire shape returned by the `/api/businesses` route. */
  datatype NearbyBusiness = NearbyBusiness(
    name: string,
    category: string,
    openNow: bool,
    rating: real,
    address: Option<string>,
    distance: int,
    lat: real,
    lng: real,
    placeId: string)

  datatype InstitutionType = School | College | University

  datatype Institution = Institution(
    id: string,
    name: string,
    kind: InstitutionType,
    lat: real,
    lon: real,
    address: Option<string>)

  /** The filter configuration of the business list; `institution` is the optional field. */
  datatype FilterOptions = FilterOptions(
    category: seq<string>,
    priceRange: seq<string>,
    rating: real,
    studentDiscount: bool,
    openNow: bool,
    searchQuery: string,
    institution: Option<string>)

  /** OpenStreetMap tags of an element. */
  type Tags = map<string, string>

  /** JavaScript's `tags[key]` read for truthiness: a missing tag reads as the empty string. */
  function Tag(tags: Tags, key: string): string
  {
    if key in tags then tags[key] else ""
  }

  /** An Overpass element with its coordinates (`out;` and node output carry `lat`/`lon`). */
  datatype Element = Element(kind: string, id: nat, lat: real, lon: real, tags: Option<Tags>)

  /** `URLSearchParams` as the ordered list of its entries. */
  datatype Param = Param(key: string, value: string)

  /** `params.get(key)`: the value of the first entry with that key. */
  function GetParam(params: seq<Param>, key: string): (r: Option<string>)
    ensures r.None? <==> forall i :: 0 <= i < |params| ==> params[i].key != key
    ensures r.Some? ==> exists i :: 0 <= i < |params| && params[i] == Param(key, r.value)
  {
    if params == [] then None
    else if params[0].key == key then Some(params[0].value)
    else GetParam(params[1..], key)
  }

  /** `get` on two lists of entries one after the other: the first list wins. */
  lemma {:induction false} GetParamConcat(a: seq<Param>, b: seq<Param>, key: string)
    ensures GetParam(a + b, key) == if GetParam(a, key).Some? then GetParam(a, key) else GetParam(b, key)
  {
    if a != [] {
      GetParamConcat(a[1..], b, key);
      assert (a + b)[1..] == a[1..] + b;
    } else {
      assert a + b == b;
    }
  }

  /** `if (present) params.append(key, value)`: one entry or none. */
  function OptParam(present: bool, key: string, value: string): seq<Param>
  {
    if present then [Param(key, value)] else []
  }

  /** `get` on one optional entry. */
  lemma GetOptParam(present: bool, key: string, value: string, k: string)
    ensures GetParam(OptParam(present, key, value), k) == if present && key == k then Some(value) else None
  {
  }
}
