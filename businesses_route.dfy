/**
 * The `GET /api/businesses?lat=..&lng=..` route: parameter validation, then the
 * Overpass elements are turned into `NearbyBusiness` records by a
 * filter / map / filter / slice chain. The Overpass response is an input: `None`
 * stands for a failed fetch or a non-OK status.
 */
module BusinessesRoute {
  import opened Wrappers
  import opened Seqs
  import opened Text
  import opened Types

  const MaxBusinesses: nat := 50

  datatype Response = BadRequest(error: string) | Json(businesses: seq<NearbyBusiness>)

  /** Only nodes that carry tags are mapped. */
  predicate IsTaggedNode(e: Element)
  {
    e.kind == "node" && e.tags.Some?
  }

  /** The first non-empty tag among amenity, shop, leisure and tourism, with every '_' made a space. */
  function Category(tags: Tags): (c: string)
    ensures c != "" && '_' !in c
    ensures Tag(tags, "amenity") != "" ==> c == ReplaceChar(Tag(tags, "amenity"), '_', ' ')
    ensures Tag(tags, "amenity") == "" && Tag(tags, "shop") != "" ==> c == ReplaceChar(Tag(tags, "shop"), '_', ' ')
    ensures (Tag(tags, "amenity") == Tag(tags, "shop") == "" && Tag(tags, "leisure") != "")
      ==> c == ReplaceChar(Tag(tags, "leisure"), '_', ' ')
    ensures (Tag(tags, "amenity") == Tag(tags, "shop") == Tag(tags, "leisure") == "" && Tag(tags, "tourism") != "")
      ==> c == ReplaceChar(Tag(tags, "tourism"), '_', ' ')
    ensures (Tag(tags, "amenity") == Tag(tags, "shop") == Tag(tags, "leisure") == Tag(tags, "tourism") == "")
      ==> c == "business"
  {
    if Tag(tags, "amenity") != "" then ReplaceChar(Tag(tags, "amenity"), '_', ' ')
    else if Tag(tags, "shop") != "" then ReplaceChar(Tag(tags, "shop"), '_', ' ')
    else if Tag(tags, "leisure") != "" then ReplaceChar(Tag(tags, "leisure"), '_', ' ')
    else if Tag(tags, "tourism") != "" then ReplaceChar(Tag(tags, "tourism"), '_', ' ')
    else "business"
  }

  /** The name placed on an element without a `name` tag: "<category> (<id>)". */
  function PlaceholderName(category: string, id: nat): (r: string)
    ensures |r| > |category| && r[..|category|] == category
  {
    category + " (" + NatToString(id) + ")"
  }

  /** `tags['addr:full'] || tags['addr:street'] || ''`. */
  function Address(tags: Tags): (r: string)
    ensures Tag(tags, "addr:full") != "" ==> r == Tag(tags, "addr:full")
    ensures Tag(tags, "addr:full") == "" ==> r == Tag(tags, "addr:street")
    ensures r == "" <==> Tag(tags, "addr:full") == "" && Tag(tags, "addr:street") == ""
  {
    if Tag(tags, "addr:full") != "" then Tag(tags, "addr:full") else Tag(tags, "addr:street")
  }

  /**
   * The record built for one tagged node. `distance` stands for the rounded planar
   * distance from the query point, which is not modelled.
   */
  function ToNearby(e: Element, distance: Element -> int): (b: NearbyBusiness)
    ensures b.category == Category(e.tags.GetOr(map[]))
    ensures Tag(e.tags.GetOr(map[]), "name") != "" ==> b.name == Tag(e.tags.GetOr(map[]), "name")
    ensures Tag(e.tags.GetOr(map[]), "name") == "" ==> b.name == PlaceholderName(b.category, e.id) && IsNamed(b)
    ensures b.rating == 0.0 && !b.openNow
    ensures b.placeId == "osm_" + NatToString(e.id)
    ensures b.lat == e.lat && b.lng == e.lon
    ensures b.address == Some(Address(e.tags.GetOr(map[]))) && b.distance == distance(e)
  {
    var tags := e.tags.GetOr(map[]);
    var category := Category(tags);
    NearbyBusiness(
      name := if Tag(tags, "name") != "" then Tag(tags, "name") else PlaceholderName(category, e.id),
      category := category,
      openNow := false,
      rating := 0.0,
      address := Some(Address(tags)),
      distance := distance(e),
      lat := e.lat,
      lng := e.lon,
      placeId := "osm_" + NatToString(e.id))
  }

  /** `business.name && business.name !== business.category`. */
  predicate IsNamed(b: NearbyBusiness)
  {
    b.name != "" && b.name != b.category
  }

  /** The records before the cap, in upstream order. */
  function Candidates(elements: seq<Element>, distance: Element -> int): seq<NearbyBusiness>
  {
    Filter(Map(Filter(elements, IsTaggedNode), e => ToNearby(e, distance)), IsNamed)
  }

  /** The transformed list: at most 50 records, a prefix of the candidates. */
  function Transform(elements: seq<Element>, distance: Element -> int): (r: seq<NearbyBusiness>)
    ensures |r| == Min(MaxBusinesses, |Candidates(elements, distance)|) <= MaxBusinesses
    ensures r == Candidates(elements, distance)[..|r|]
    ensures forall b :: b in r ==> IsNamed(b) && b.rating == 0.0 && !b.openNow
  {
    CandidatesFacts(elements, distance);
    Take(Candidates(elements, distance), MaxBusinesses)
  }

  /** Every candidate is named, unrated and closed. */
  lemma CandidatesFacts(elements: seq<Element>, distance: Element -> int)
    ensures forall b :: b in Candidates(elements, distance) ==> IsNamed(b) && b.rating == 0.0 && !b.openNow
  {
    var mapped := Map(Filter(elements, IsTaggedNode), e => ToNearby(e, distance));
    forall b | b in Candidates(elements, distance) ensures IsNamed(b) && b.rating == 0.0 && !b.openNow {
      assert b in mapped && IsNamed(b);
      var i :| 0 <= i < |mapped| && mapped[i] == b;
      assert b == ToNearby(Filter(elements, IsTaggedNode)[i], distance);
    }
  }

  /** `GET`: the 400 checks in order, then the transform, or `[]` when the Overpass fetch failed. */
  function Get(lat: Option<string>, lng: Option<string>, parseFloat: string -> Option<real>,
               overpass: Option<seq<Element>>, distance: Element -> int): (r: Response)
    ensures (lat.GetOr("") == "" || lng.GetOr("") == "") <==> r == BadRequest("Latitude and longitude are required")
    ensures r == BadRequest("Invalid latitude or longitude") <==>
              lat.GetOr("") != "" && lng.GetOr("") != "" && (parseFloat(lat.value).None? || parseFloat(lng.value).None?)
    ensures (lat.GetOr("") != "" && lng.GetOr("") != "" && parseFloat(lat.value).Some? && parseFloat(lng.value).Some?)
              ==> r.Json?
    ensures r.Json? && overpass.None? ==> r.businesses == []
    ensures r.Json? && overpass.Some? ==> r.businesses == Transform(overpass.value, distance)
  {
    if lat.GetOr("") == "" || lng.GetOr("") == "" then BadRequest("Latitude and longitude are required")
    else if parseFloat(lat.value).None? || parseFloat(lng.value).None? then BadRequest("Invalid latitude or longitude")
    else if overpass.None? then Json([])
    else Json(Transform(overpass.value, distance))
  }

  /** An element with no `name` tag is listed under its placeholder name. */
  lemma UnnamedNodeIsListed(e: Element, distance: Element -> int)
    requires IsTaggedNode(e) && Tag(e.tags.value, "name") == ""
    ensures Candidates([e], distance) == [ToNearby(e, distance)]
    ensures ToNearby(e, distance).name == PlaceholderName(Category(e.tags.value), e.id)
  {
    assert Filter([e], IsTaggedNode) == [e];
    assert Map([e], e => ToNearby(e, distance)) == [ToNearby(e, distance)];
    assert IsNamed(ToNearby(e, distance));
  }

  /**
   * The "unnamed businesses" filter keeps placeholder names: the element
   * {id: 1, tags: {amenity: "cafe_bar"}} is listed as "cafe bar (1)".
   */
  lemma UnnamedCafeIsListed(distance: Element -> int)
    ensures Transform([Element("node", 1, 11.02, 76.96, Some(map["amenity" := "cafe_bar"]))], distance)
              == [ToNearby(Element("node", 1, 11.02, 76.96, Some(map["amenity" := "cafe_bar"])), distance)]
    ensures Transform([Element("node", 1, 11.02, 76.96, Some(map["amenity" := "cafe_bar"]))], distance)[0].name == "cafe bar (1)"
  {
    var e := Element("node", 1, 11.02, 76.96, Some(map["amenity" := "cafe_bar"]));
    var tags := map["amenity" := "cafe_bar"];
    assert Tag(tags, "name") == "";
    assert ReplaceChar("cafe_bar", '_', ' ') == "cafe bar";
    assert NatToString(1) == "1";
    UnnamedNodeIsListed(e, distance);
  }
}
