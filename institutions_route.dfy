/**
 * The `GET /api/institutions` route (src/app/api/institutions/route.ts): three
 * Nominatim searches run one after another, each result list is narrowed to the
 * Coimbatore area and appended, the combined list is deduplicated by place id or
 * coordinates, and every item becomes an institution record. Each search's
 * response is an input: `fetch(query)` is `None` when the request failed or
 * returned a non-OK status; `parseFloat` stands for JavaScript's `parseFloat`,
 * with `None` for NaN.
 */
module InstitutionsRoute {
  import opened Wrappers
  import opened Seqs
  import opened Text
  import opened Types

  /** One Nominatim search result; `lat` and `lon` are the strings Nominatim sends. */
  datatype NominatimItem = NominatimItem(placeId: int, displayName: string, lat: string, lon: string)

  /** The record the route returns for one item. `None` coordinates stand for NaN. */
  datatype RouteInstitution = RouteInstitution(
    name: string,
    displayName: string,
    latitude: Option<real>,
    longitude: Option<real>,
    placeId: int,
    kind: InstitutionType,
    address: string)

  const Queries: seq<string> := [
    "college Coimbatore Tamil Nadu India",
    "university Coimbatore Tamil Nadu India",
    "school Coimbatore Tamil Nadu India"
  ]

  /** A parsed coordinate inside [lo, hi]; NaN compares false. */
  predicate Within(parseFloat: string -> Option<real>, s: string, lo: real, hi: real)
  {
    parseFloat(s).Some? && lo <= parseFloat(s).value <= hi
  }

  /** The area test: the name mentions Coimbatore or Tamil Nadu, or the coordinates fall in the box. */
  predicate InArea(parseFloat: string -> Option<real>, item: NominatimItem)
  {
    || Contains(Lower(item.displayName), "coimbatore")
    || Contains(Lower(item.displayName), "tamil nadu")
    || (item.lat != "" && item.lon != ""
        && Within(parseFloat, item.lat, 10.5, 11.5) && Within(parseFloat, item.lon, 76.5, 77.5))
  }

  function AreaTest(parseFloat: string -> Option<real>): NominatimItem -> bool
  {
    (item: NominatimItem) => InArea(parseFloat, item)
  }

  /** What one search contributes: its in-area items, or nothing when it failed. */
  function Contribution(response: Option<seq<NominatimItem>>, parseFloat: string -> Option<real>): seq<NominatimItem>
  {
    if response.None? then [] else Filter(response.value, AreaTest(parseFloat))
  }

  /** The accumulated list after running `queries` in order. */
  function Collected(queries: seq<string>, fetch: string -> Option<seq<NominatimItem>>,
                     parseFloat: string -> Option<real>): seq<NominatimItem>
  {
    if queries == [] then []
    else Collected(queries[..|queries| - 1], fetch, parseFloat) + Contribution(fetch(queries[|queries| - 1]), parseFloat)
  }

  /** The search loop: a failed search is skipped and the next one still runs. */
  method CollectInstitutions(fetch: string -> Option<seq<NominatimItem>>, parseFloat: string -> Option<real>)
    returns (all: seq<NominatimItem>)
    ensures all == Collected(Queries, fetch, parseFloat)
  {
    all := [];
    var i := 0;
    while i < |Queries|
      invariant 0 <= i <= |Queries|
      invariant all == Collected(Queries[..i], fetch, parseFloat)
    {
      var query := Queries[i];
      assert Queries[..i + 1][..i] == Queries[..i];
      var response := fetch(query);
      i := i + 1;
      if response.None? {
        continue;
      }
      var filteredData := Filter(response.value, AreaTest(parseFloat));
      all := all + filteredData;
    }
    assert Queries[..i] == Queries;
  }

  /**
   * An item is collected exactly when some search succeeded, returned it, and it
   * passes the area test.
   */
  lemma {:induction false} CollectedMember(queries: seq<string>, fetch: string -> Option<seq<NominatimItem>>,
                                           parseFloat: string -> Option<real>, x: NominatimItem)
    ensures x in Collected(queries, fetch, parseFloat) <==>
      InArea(parseFloat, x) && exists q :: q in queries && fetch(q).Some? && x in fetch(q).value
  {
    if queries != [] {
      var init := queries[..|queries| - 1];
      var last := queries[|queries| - 1];
      CollectedMember(init, fetch, parseFloat, x);
      if fetch(last).Some? {
        FilterMember(fetch(last).value, AreaTest(parseFloat), x);
      }
      assert forall q :: q in queries <==> q in init || q == last by {
        assert queries == init + [last];
      }
    }
  }

  /** `i.place_id === item.place_id || (i.lat === item.lat && i.lon === item.lon)`, on the raw strings. */
  function SamePlace(): (NominatimItem, NominatimItem) -> bool
  {
    (a: NominatimItem, b: NominatimItem) => a.placeId == b.placeId || (a.lat == b.lat && a.lon == b.lon)
  }

  /** `self.filter((item, index) => index === self.findIndex(i => same(i, item)))`. */
  function Dedupe(items: seq<NominatimItem>): seq<NominatimItem>
  {
    FirstIndexFilter(items, SamePlace())
  }

  /**
   * The dedupe keeps exactly the items with no earlier item sharing their place id or
   * coordinates: it is a subsequence of its input that starts with the first item,
   * no two kept items share a place id or a coordinate pair, every item that has no
   * earlier match is kept, and running it again changes nothing.
   */
  lemma DedupeFacts(items: seq<NominatimItem>)
    ensures Dedupe(items) == KeepFirst(items, SamePlace())
    ensures IsSubsequence(Dedupe(items), items)
    ensures items != [] ==> |Dedupe(items)| > 0 && Dedupe(items)[0] == items[0]
    ensures forall i, j :: 0 <= i < j < |Dedupe(items)| ==>
              Dedupe(items)[i].placeId != Dedupe(items)[j].placeId
              && (Dedupe(items)[i].lat, Dedupe(items)[i].lon) != (Dedupe(items)[j].lat, Dedupe(items)[j].lon)
    ensures forall k :: 0 <= k < |items| && !HasEarlier(items, k, SamePlace()) ==> items[k] in Dedupe(items)
    ensures Dedupe(Dedupe(items)) == Dedupe(items)
  {
    FirstIndexFilterIsKeepFirst(items, |items|, SamePlace());
    KeepFirstIsSubsequence(items, SamePlace());
    KeepFirstUnique(items, SamePlace());
    forall k | 0 <= k < |items| && !HasEarlier(items, k, SamePlace()) ensures items[k] in Dedupe(items) {
      KeepFirstKeeps(items, |items|, k, SamePlace());
    }
    var r := Dedupe(items);
    FirstIndexFilterIsKeepFirst(r, |r|, SamePlace());
    KeepFirstIdempotent(items, SamePlace());
  }

  /** `display_name.split(',')[0] || display_name`. */
  function InstitutionName(displayName: string): (name: string)
    ensures |name| <= |displayName| && name == displayName[..|name|]
    ensures name == "" <==> displayName == ""
    ensures name != displayName ==> ',' !in name && displayName[|name|] == ','
    ensures displayName != "" && displayName[0] == ',' ==> name == displayName
  {
    if FirstField(displayName, ',') != "" then FirstField(displayName, ',') else displayName
  }

  /** 'college' when the lower-cased display name mentions a college or a university, else 'school'. */
  function InstitutionKind(displayName: string): (kind: InstitutionType)
    ensures kind != University
    ensures kind == College <==>
              Contains(Lower(displayName), "college") || Contains(Lower(displayName), "university")
  {
    if Contains(Lower(displayName), "college") || Contains(Lower(displayName), "university") then College
    else School
  }

  function ToInstitution(parseFloat: string -> Option<real>, item: NominatimItem): (r: RouteInstitution)
    ensures r.address == r.displayName == item.displayName
    ensures r.placeId == item.placeId
    ensures r.name == InstitutionName(item.displayName) && r.kind == InstitutionKind(item.displayName)
  {
    RouteInstitution(
      name := InstitutionName(item.displayName),
      displayName := item.displayName,
      latitude := parseFloat(item.lat),
      longitude := parseFloat(item.lon),
      placeId := item.placeId,
      kind := InstitutionKind(item.displayName),
      address := item.displayName)
  }

  function ToInstitutionWith(parseFloat: string -> Option<real>): NominatimItem -> RouteInstitution
  {
    (item: NominatimItem) => ToInstitution(parseFloat, item)
  }

  /** `GET`: collect, deduplicate, map. */
  method Get(fetch: string -> Option<seq<NominatimItem>>, parseFloat: string -> Option<real>)
    returns (institutions: seq<RouteInstitution>)
    ensures institutions == Map(Dedupe(Collected(Queries, fetch, parseFloat)), ToInstitutionWith(parseFloat))
    ensures forall i :: 0 <= i < |institutions| ==> institutions[i].kind != University
  {
    var allInstitutions := CollectInstitutions(fetch, parseFloat);
    var uniqueInstitutions := Dedupe(allInstitutions);
    institutions := Map(uniqueInstitutions, ToInstitutionWith(parseFloat));
  }

  /**
   * The response lists each in-area item of a successful search once per group of
   * items sharing a place id or coordinates, in the order the searches returned them,
   * with no two entries sharing a place id.
   */
  lemma GetFacts(fetch: string -> Option<seq<NominatimItem>>, parseFloat: string -> Option<real>)
    ensures var items := Dedupe(Collected(Queries, fetch, parseFloat));
      && |Map(items, ToInstitutionWith(parseFloat))| == |items|
      && (forall i :: 0 <= i < |items| ==> InArea(parseFloat, items[i]))
      && (forall i :: 0 <= i < |items| ==>
            exists q :: q in Queries && fetch(q).Some? && items[i] in fetch(q).value)
      && (forall i, j :: 0 <= i < j < |items| ==>
            Map(items, ToInstitutionWith(parseFloat))[i].placeId != Map(items, ToInstitutionWith(parseFloat))[j].placeId)
  {
    var all := Collected(Queries, fetch, parseFloat);
    var items := Dedupe(all);
    DedupeFacts(all);
    forall i | 0 <= i < |items|
      ensures InArea(parseFloat, items[i])
      ensures exists q :: q in Queries && fetch(q).Some? && items[i] in fetch(q).value
    {
      DedupedFromSearch(fetch, parseFloat, items[i]);
    }
  }

  /** An item of the deduplicated list is an in-area item some successful search returned. */
  lemma DedupedFromSearch(fetch: string -> Option<seq<NominatimItem>>, parseFloat: string -> Option<real>,
                          x: NominatimItem)
    requires x in Dedupe(Collected(Queries, fetch, parseFloat))
    ensures InArea(parseFloat, x)
    ensures exists q :: q in Queries && fetch(q).Some? && x in fetch(q).value
  {
    var all := Collected(Queries, fetch, parseFloat);
    DedupeFacts(all);
    KeepFirstUpToFacts(all, |all|, SamePlace());
    assert x in KeepFirstUpTo(all, |all|, SamePlace());
    CollectedMember(Queries, fetch, parseFloat, x);
  }
}
