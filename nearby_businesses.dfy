/**
 * `GET /nearby-businesses` of the backend (backend/routers/businesses.py): the named
 * Overpass elements within `radius` metres become results, which are sorted by
 * distance (ascending) or rating (descending) and capped at 50. The Overpass response
 * is an input (`None` for a failed request); `distance(lat, lon)` is the haversine
 * distance in metres from the query point and `formatMeters` is `f"{d:.0f}"`.
 */
module NearbyBusinesses {
  import opened Wrappers
  import opened Seqs
  import opened Text
  import opened Types
  import opened Database
  import opened BackendInstitutions

  /** One entry of the response. */
  datatype NearbyResult = NearbyResult(
    businessName: string,
    category: string,
    rating: real,
    address: string,
    distanceM: int,
    lat: real,
    lng: real,
    openingHours: string,
    placeId: string)

  const MaxResults: nat := 50
  const DefaultRating: real := 4.0
  const FailedNearby := "Failed to fetch nearby businesses"

  /** Python's `int(x)` on a float: truncation toward zero. */
  function Trunc(x: real): (n: int)
    ensures x >= 0.0 ==> n as real <= x < n as real + 1.0
    ensures x < 0.0 ==> n as real - 1.0 < x <= n as real
  {
    if x >= 0.0 then x.Floor else -((-x).Floor)
  }

  /** Truncating a distance within an integer radius keeps it within the radius. */
  lemma TruncWithin(d: real, radius: int)
    requires d <= radius as real
    ensures Trunc(d) <= radius
  {
  }

  /** The element has tags, a name longer than 2 characters, and non-zero coordinates. */
  predicate IsNamedPlace(e: OsmElement)
  {
    e.tags.Some? && |Get(e.tags.value, "name", "")| > 2 && Latitude(e) != 0.0 && Longitude(e) != 0.0
  }

  /** A named place at most `radius` metres away. */
  predicate IsNearby(distance: (real, real) -> real, radius: int, e: OsmElement)
  {
    IsNamedPlace(e) && distance(Latitude(e), Longitude(e)) <= radius as real
  }

  /** `category or tags.get("amenity", tags.get("shop", "business"))`. */
  function ResultCategory(category: Option<string>, tags: Tags): (c: string)
    ensures category.Some? && category.value != "" ==> c == category.value
    ensures (category.None? || category.value == "") && "amenity" in tags ==> c == tags["amenity"]
  {
    if category.Some? && category.value != "" then category.value
    else Get(tags, "amenity", Get(tags, "shop", "business"))
  }

  function ToResult(e: OsmElement, distanceM: real, category: Option<string>, formatMeters: real -> string): (r: NearbyResult)
    requires IsNamedPlace(e)
    ensures r.rating == DefaultRating && r.distanceM == Trunc(distanceM)
    ensures r.lat == Latitude(e) && r.lng == Longitude(e) && r.placeId == "osm_" + NatToString(e.id)
  {
    var tags := e.tags.value;
    NearbyResult(
      businessName := Get(tags, "name", ""),
      category := ResultCategory(category, tags),
      rating := DefaultRating,
      address := Get(tags, "addr:full", Get(tags, "addr:street", "Coimbatore, " + formatMeters(distanceM) + "m away")),
      distanceM := Trunc(distanceM),
      lat := Latitude(e),
      lng := Longitude(e),
      openingHours := Get(tags, "opening_hours", "Not specified"),
      placeId := "osm_" + NatToString(e.id))
  }

  /** The results the Overpass loop appends, in element order. */
  function NearbyResults(elements: seq<OsmElement>, distance: (real, real) -> real, radius: int,
                         category: Option<string>, formatMeters: real -> string): seq<NearbyResult>
  {
    if elements == [] then []
    else
      var last := elements[|elements| - 1];
      NearbyResults(elements[..|elements| - 1], distance, radius, category, formatMeters)
      + (if IsNearby(distance, radius, last)
         then [ToResult(last, distance(Latitude(last), Longitude(last)), category, formatMeters)]
         else [])
  }

  /** The Overpass loop: append one result per named place within the radius. */
  method CollectNearby(elements: seq<OsmElement>, distance: (real, real) -> real, radius: int,
                       category: Option<string>, formatMeters: real -> string)
    returns (businesses: seq<NearbyResult>)
    ensures businesses == NearbyResults(elements, distance, radius, category, formatMeters)
  {
    businesses := [];
    for i := 0 to |elements|
      invariant businesses == NearbyResults(elements[..i], distance, radius, category, formatMeters)
    {
      assert elements[..i + 1][..i] == elements[..i];
      var element := elements[i];
      if IsNamedPlace(element) {
        var distanceM := distance(Latitude(element), Longitude(element));
        if distanceM <= radius as real {
          businesses := businesses + [ToResult(element, distanceM, category, formatMeters)];
        }
      }
    }
    assert elements[..|elements|] == elements;
  }

  /** Every collected result lies within the radius and carries the default rating. */
  lemma {:induction false} NearbyResultsFacts(elements: seq<OsmElement>, distance: (real, real) -> real, radius: int,
                                              category: Option<string>, formatMeters: real -> string)
    ensures var rs := NearbyResults(elements, distance, radius, category, formatMeters);
      && |rs| <= |elements|
      && forall i :: 0 <= i < |rs| ==> rs[i].distanceM <= radius && rs[i].rating == DefaultRating
  {
    if elements != [] {
      var last := elements[|elements| - 1];
      NearbyResultsFacts(elements[..|elements| - 1], distance, radius, category, formatMeters);
      if IsNearby(distance, radius, last) {
        TruncWithin(distance(Latitude(last), Longitude(last)), radius);
      }
    }
  }

  function ByDistance(): (NearbyResult, NearbyResult) -> bool
  {
    (a: NearbyResult, b: NearbyResult) => a.distanceM <= b.distanceM
  }

  /** `sort(key=rating, reverse=True)`: higher ratings first, ties kept in order. */
  function ByRatingDescending(): (NearbyResult, NearbyResult) -> bool
  {
    (a: NearbyResult, b: NearbyResult) => a.rating >= b.rating
  }

  /** 'distance' sorts by distance, 'rating' by rating descending, anything else keeps the order. */
  function SortResults(rs: seq<NearbyResult>, sortBy: string): seq<NearbyResult>
  {
    if sortBy == "distance" then SortBy(rs, ByDistance())
    else if sortBy == "rating" then SortBy(rs, ByRatingDescending())
    else rs
  }

  /** What `get_nearby_businesses` returns for the Overpass response. */
  function Nearby(overpass: Option<seq<OsmElement>>, distance: (real, real) -> real, radius: int,
                  category: Option<string>, sortBy: string, formatMeters: real -> string): Reply<seq<NearbyResult>>
  {
    if overpass.None? then Error(500, FailedNearby)
    else Ok(Take(SortResults(NearbyResults(overpass.value, distance, radius, category, formatMeters), sortBy), MaxResults))
  }

  /** `get_nearby_businesses`, without the Google Places supplement. */
  method GetNearbyBusinesses(overpass: Option<seq<OsmElement>>, distance: (real, real) -> real, radius: int,
                             category: Option<string>, sortBy: string, formatMeters: real -> string)
    returns (reply: Reply<seq<NearbyResult>>)
    ensures reply == Nearby(overpass, distance, radius, category, sortBy, formatMeters)
  {
    if overpass.None? {
      return Error(500, FailedNearby);
    }
    var businesses := CollectNearby(overpass.value, distance, radius, category, formatMeters);
    if sortBy == "distance" {
      businesses := SortBy(businesses, ByDistance());
    } else if sortBy == "rating" {
      businesses := SortBy(businesses, ByRatingDescending());
    }
    reply := Ok(Take(businesses, MaxResults));
  }

  /**
   * A successful reply has at most 50 results, each within the radius; sorting by
   * distance orders them by distance and keeps the collected results; sorting by rating
   * or by an unknown key keeps the collection order, since every Overpass result has the
   * same rating.
   */
  lemma NearbyFacts(overpass: seq<OsmElement>, distance: (real, real) -> real, radius: int,
                    category: Option<string>, sortBy: string, formatMeters: real -> string)
    ensures var rs := NearbyResults(overpass, distance, radius, category, formatMeters);
      var reply := Nearby(Some(overpass), distance, radius, category, sortBy, formatMeters);
      && reply.Ok?
      && |reply.value| <= MaxResults
      && (forall i :: 0 <= i < |reply.value| ==> reply.value[i].distanceM <= radius)
      && (sortBy == "distance" ==>
            SortedBy(reply.value, ByDistance()) && multiset(SortResults(rs, sortBy)) == multiset(rs))
      && (sortBy != "distance" ==> reply.value == Take(rs, MaxResults))
  {
    var rs := NearbyResults(overpass, distance, radius, category, formatMeters);
    NearbyResultsFacts(overpass, distance, radius, category, formatMeters);
    var sorted := SortResults(rs, sortBy);
    if sortBy == "distance" {
      SortByCorrect(rs, ByDistance());
      SortedTake(sorted, MaxResults, ByDistance());
    } else if sortBy == "rating" {
      SortByAllEquivalent(rs, ByRatingDescending());
    }
    assert multiset(sorted) == multiset(rs);
    forall i | 0 <= i < |Take(sorted, MaxResults)| ensures Take(sorted, MaxResults)[i].distanceM <= radius {
      assert sorted[i] in multiset(rs);
    }
  }
}
