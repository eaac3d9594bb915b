/**
 * `GET /institutions` of the backend (backend/routers/businesses.py): institutions
 * from an Overpass response, topped up from a Nominatim search when Overpass gave
 * fewer than 20, deduplicated by (lower-case name, rounded latitude, rounded
 * longitude) and capped at 50. Both responses are inputs (`None` for a failed
 * request); `parseFloat` is Python's `float` on a string (`None` when it raises) and
 * `round4` is `round(x, 4)`.
 */
module BackendInstitutions {
  import opened Wrappers
  import opened Seqs
  import opened Text
  import opened Types
  import opened Database

  /** An element of an Overpass `out center` response: nodes carry lat/lon, ways a center. */
  datatype OsmElement = OsmElement(
    id: nat,
    tags: Option<Tags>,
    lat: Option<real>,
    lon: Option<real>,
    centerLat: Option<real>,
    centerLon: Option<real>)

  /** Python's `dict.get(key, default)`: a key that is present wins, even with an empty value. */
  function Get(tags: Tags, key: string, default: string): (value: string)
    ensures key in tags ==> value == tags[key]
    ensures key !in tags ==> value == default
  {
    if key in tags then tags[key] else default
  }

  /** `element.get("lat", element.get("center", {}).get("lat", 0))`. */
  function Latitude(e: OsmElement): real
  {
    if e.lat.Some? then e.lat.value else e.centerLat.GetOr(0.0)
  }

  function Longitude(e: OsmElement): real
  {
    if e.lon.Some? then e.lon.value else e.centerLon.GetOr(0.0)
  }

  /** One entry of the response. */
  datatype BackendInstitution = BackendInstitution(
    name: string,
    kind: InstitutionType,
    address: string,
    latitude: real,
    longitude: real,
    placeId: string)

  const MinCount: nat := 20
  const MaxInstitutions: nat := 50
  const FailedInstitutions := "Failed to fetch institutions"

  // ---------------------------------------------------------------------------
  // Overpass phase
  // ---------------------------------------------------------------------------

  /** The element has tags, a name longer than 3 characters, and non-zero coordinates. */
  predicate IsListedOsm(e: OsmElement)
  {
    e.tags.Some? && |Get(e.tags.value, "name", "")| > 3 && Latitude(e) != 0.0 && Longitude(e) != 0.0
  }

  /** 'college' when the lower-cased amenity mentions a college or a university, else 'school'. */
  function OsmKind(tags: Tags): (kind: InstitutionType)
    ensures kind != University
    ensures kind == College <==>
              Contains(Lower(Get(tags, "amenity", "")), "college") || Contains(Lower(Get(tags, "amenity", "")), "university")
  {
    var amenity := Lower(Get(tags, "amenity", ""));
    if Contains(amenity, "college") || Contains(amenity, "university") then College else School
  }

  function FromOsm(e: OsmElement): (inst: BackendInstitution)
    requires IsListedOsm(e)
    ensures |inst.name| > 3 && inst.latitude != 0.0 && inst.longitude != 0.0
    ensures inst.placeId == "osm_" + NatToString(e.id)
  {
    var tags := e.tags.value;
    BackendInstitution(
      name := Get(tags, "name", ""),
      kind := OsmKind(tags),
      address := Get(tags, "addr:full", Get(tags, "addr:street", "Coimbatore, Tamil Nadu")),
      latitude := Latitude(e),
      longitude := Longitude(e),
      placeId := "osm_" + NatToString(e.id))
  }

  /** The institutions the Overpass loop appends, in element order. */
  function OsmInstitutions(elements: seq<OsmElement>): seq<BackendInstitution>
  {
    if elements == [] then []
    else
      var last := elements[|elements| - 1];
      OsmInstitutions(elements[..|elements| - 1]) + (if IsListedOsm(last) then [FromOsm(last)] else [])
  }

  /** The Overpass loop: append one institution per listed element. */
  method CollectOsm(elements: seq<OsmElement>) returns (institutions: seq<BackendInstitution>)
    ensures institutions == OsmInstitutions(elements)
  {
    institutions := [];
    for i := 0 to |elements|
      invariant institutions == OsmInstitutions(elements[..i])
    {
      assert elements[..i + 1][..i] == elements[..i];
      var element := elements[i];
      if IsListedOsm(element) {
        institutions := institutions + [FromOsm(element)];
      }
    }
    assert elements[..|elements|] == elements;
  }

  /** An institution is collected exactly when a listed element produced it. */
  lemma {:induction false} OsmInstitutionsMember(elements: seq<OsmElement>, inst: BackendInstitution)
    ensures inst in OsmInstitutions(elements) <==> exists e :: e in elements && IsListedOsm(e) && inst == FromOsm(e)
    ensures |OsmInstitutions(elements)| <= |elements|
  {
    if elements != [] {
      var init := elements[..|elements| - 1];
      var last := elements[|elements| - 1];
      OsmInstitutionsMember(init, inst);
      assert elements == init + [last];
      assert forall e :: e in elements <==> e in init || e == last;
    }
  }

  // ---------------------------------------------------------------------------
  // Nominatim phase
  // ---------------------------------------------------------------------------

  /** One Nominatim result; each field is `None` when the key is missing. */
  datatype NominatimResult = NominatimResult(
    placeId: string,
    displayName: Option<string>,
    lat: Option<string>,
    lon: Option<string>)

  /** `{inst["name"].lower() for inst in institutions}`. */
  function ExistingNames(institutions: seq<BackendInstitution>): (names: set<string>)
    ensures forall i :: 0 <= i < |institutions| ==> Lower(institutions[i].name) in names
    ensures forall n :: n in names ==> exists i :: 0 <= i < |institutions| && n == Lower(institutions[i].name)
  {
    set i | 0 <= i < |institutions| :: Lower(institutions[i].name)
  }

  /** `item.get("display_name", "").split(",")[0]`. */
  function NominatimName(item: NominatimResult): string
  {
    FirstField(item.displayName.GetOr(""), ',')
  }

  /** The name is non-empty, longer than 3 characters and new among the Overpass names. */
  predicate IsListedNominatim(existing: set<string>, item: NominatimResult)
  {
    NominatimName(item) != "" && Lower(NominatimName(item)) !in existing && |NominatimName(item)| > 3
  }

  /** `float(item.get("lat", 0))`: a missing key is 0, a string that does not parse raises. */
  function Coordinate(parseFloat: string -> Option<real>, value: Option<string>): Option<real>
  {
    if value.None? then Some(0.0) else parseFloat(value.value)
  }

  /** 'college' when the lower-cased display name mentions a college, else 'school'. */
  function NominatimKind(displayName: string): (kind: InstitutionType)
    ensures kind != University
    ensures kind == College <==> Contains(Lower(displayName), "college")
  {
    if Contains(Lower(displayName), "college") then College else School
  }

  function FromNominatim(item: NominatimResult, latitude: real, longitude: real): (inst: BackendInstitution)
    ensures inst.name == NominatimName(item) && inst.address == item.displayName.GetOr("")
    ensures inst.placeId == "nominatim_" + item.placeId
  {
    BackendInstitution(
      name := NominatimName(item),
      kind := NominatimKind(item.displayName.GetOr("")),
      address := item.displayName.GetOr(""),
      latitude := latitude,
      longitude := longitude,
      placeId := "nominatim_" + item.placeId)
  }

  /** What the Nominatim loop appends, or `None` when a listed item's coordinate does not parse. */
  function NominatimInstitutions(existing: set<string>, items: seq<NominatimResult>,
                                 parseFloat: string -> Option<real>): Option<seq<BackendInstitution>>
  {
    if items == [] then Some([])
    else
      var prev := NominatimInstitutions(existing, items[..|items| - 1], parseFloat);
      var item := items[|items| - 1];
      if prev.None? then None
      else if !IsListedNominatim(existing, item) then prev
      else
        var lat := Coordinate(parseFloat, item.lat);
        var lon := Coordinate(parseFloat, item.lon);
        if lat.None? || lon.None? then None
        else Some(prev.value + [FromNominatim(item, lat.value, lon.value)])
  }

  /** The Nominatim loop; a coordinate that fails to parse aborts it. */
  method CollectNominatim(existing: set<string>, items: seq<NominatimResult>, parseFloat: string -> Option<real>)
    returns (added: Option<seq<BackendInstitution>>)
    ensures added == NominatimInstitutions(existing, items, parseFloat)
  {
    var institutions := [];
    for i := 0 to |items|
      invariant NominatimInstitutions(existing, items[..i], parseFloat) == Some(institutions)
    {
      assert items[..i + 1][..i] == items[..i];
      var item := items[i];
      if IsListedNominatim(existing, item) {
        var lat := Coordinate(parseFloat, item.lat);
        var lon := Coordinate(parseFloat, item.lon);
        if lat.None? || lon.None? {
          NominatimAbortStays(existing, items, parseFloat, i + 1);
          return None;
        }
        institutions := institutions + [FromNominatim(item, lat.value, lon.value)];
      }
    }
    assert items[..|items|] == items;
    added := Some(institutions);
  }

  /** Once the loop has aborted on a prefix, the whole loop aborts. */
  lemma {:induction false} NominatimAbortStays(existing: set<string>, items: seq<NominatimResult>,
                                               parseFloat: string -> Option<real>, n: nat)
    requires n <= |items|
    requires NominatimInstitutions(existing, items[..n], parseFloat).None?
    ensures NominatimInstitutions(existing, items, parseFloat).None?
    decreases |items| - n
  {
    if n < |items| {
      assert items[..n + 1][..n] == items[..n];
      NominatimAbortStays(existing, items, parseFloat, n + 1);
    } else {
      assert items[..n] == items;
    }
  }

  /** Every appended institution has a new name longer than 3 characters, taken from a listed item. */
  lemma {:induction false} NominatimInstitutionsFacts(existing: set<string>, items: seq<NominatimResult>,
                                                      parseFloat: string -> Option<real>)
    requires NominatimInstitutions(existing, items, parseFloat).Some?
    ensures var added := NominatimInstitutions(existing, items, parseFloat).value;
      && |added| <= |items|
      && forall inst :: inst in added ==>
           && |inst.name| > 3 && Lower(inst.name) !in existing && inst.kind != University
           && exists item :: item in items && IsListedNominatim(existing, item) && inst.name == NominatimName(item)
  {
    if items != [] {
      var init := items[..|items| - 1];
      var last := items[|items| - 1];
      assert items == init + [last];
      NominatimInstitutionsFacts(existing, init, parseFloat);
      assert forall x :: x in init ==> x in items;
    }
  }

  // ---------------------------------------------------------------------------
  // Deduplication
  // ---------------------------------------------------------------------------

  /** `(inst["name"].lower(), round(inst["latitude"], 4), round(inst["longitude"], 4))`. */
  datatype Key = Key(name: string, lat: real, lon: real)

  function KeyOf(round4: real -> real, inst: BackendInstitution): Key
  {
    Key(Lower(inst.name), round4(inst.latitude), round4(inst.longitude))
  }

  function SameKey(round4: real -> real): (BackendInstitution, BackendInstitution) -> bool
  {
    (a: BackendInstitution, b: BackendInstitution) => KeyOf(round4, a) == KeyOf(round4, b)
  }

  /** The `seen`-set loop: keep an institution when its key has not been seen. */
  method Deduplicate(institutions: seq<BackendInstitution>, round4: real -> real)
    returns (deduplicated: seq<BackendInstitution>)
    ensures deduplicated == KeepFirst(institutions, SameKey(round4))
  {
    var seen: set<Key> := {};
    deduplicated := [];
    for i := 0 to |institutions|
      invariant deduplicated == KeepFirstUpTo(institutions, i, SameKey(round4))
      invariant forall k :: k in seen <==> exists j :: 0 <= j < i && KeyOf(round4, institutions[j]) == k
    {
      var inst := institutions[i];
      var key := KeyOf(round4, inst);
      assert key in seen <==> HasEarlier(institutions, i, SameKey(round4));
      if key !in seen {
        seen := seen + {key};
        deduplicated := deduplicated + [inst];
      }
    }
  }

  /**
   * The dedupe keeps, in order, the first institution of each key: no two kept
   * institutions share a key, every key of the input is kept, and the output is a
   * subsequence of the input.
   */
  lemma DeduplicateFacts(institutions: seq<BackendInstitution>, round4: real -> real)
    ensures IsSubsequence(KeepFirst(institutions, SameKey(round4)), institutions)
    ensures forall i, j :: 0 <= i < j < |KeepFirst(institutions, SameKey(round4))| ==>
              KeyOf(round4, KeepFirst(institutions, SameKey(round4))[i]) != KeyOf(round4, KeepFirst(institutions, SameKey(round4))[j])
    ensures forall inst :: inst in institutions ==>
              exists kept :: kept in KeepFirst(institutions, SameKey(round4)) && KeyOf(round4, kept) == KeyOf(round4, inst)
  {
    var same := SameKey(round4);
    KeepFirstIsSubsequence(institutions, same);
    KeepFirstUnique(institutions, same);
    forall inst | inst in institutions
      ensures exists kept :: kept in KeepFirst(institutions, same) && KeyOf(round4, kept) == KeyOf(round4, inst)
    {
      var k :| 0 <= k < |institutions| && institutions[k] == inst;
      KeepFirstCovers(institutions, k, same);
    }
  }

  // ---------------------------------------------------------------------------
  // The endpoint
  // ---------------------------------------------------------------------------

  /** What `get_institutions` returns for the two responses. */
  function Institutions(overpass: Option<seq<OsmElement>>, nominatim: Option<seq<NominatimResult>>,
                        parseFloat: string -> Option<real>, round4: real -> real): Reply<seq<BackendInstitution>>
  {
    if overpass.None? then Error(500, FailedInstitutions)
    else
      var osm := OsmInstitutions(overpass.value);
      if |osm| >= MinCount then Ok(Take(KeepFirst(osm, SameKey(round4)), MaxInstitutions))
      else if nominatim.None? then Error(500, FailedInstitutions)
      else
        var added := NominatimInstitutions(ExistingNames(osm), nominatim.value, parseFloat);
        if added.None? then Error(500, FailedInstitutions)
        else Ok(Take(KeepFirst(osm + added.value, SameKey(round4)), MaxInstitutions))
  }

  /** `get_institutions`. */
  method GetInstitutions(overpass: Option<seq<OsmElement>>, nominatim: Option<seq<NominatimResult>>,
                         parseFloat: string -> Option<real>, round4: real -> real)
    returns (reply: Reply<seq<BackendInstitution>>)
    ensures reply == Institutions(overpass, nominatim, parseFloat, round4)
  {
    if overpass.None? {
      return Error(500, FailedInstitutions);
    }
    var institutions := CollectOsm(overpass.value);
    if |institutions| < MinCount {
      if nominatim.None? {
        return Error(500, FailedInstitutions);
      }
      var existingNames := ExistingNames(institutions);
      var added := CollectNominatim(existingNames, nominatim.value, parseFloat);
      if added.None? {
        return Error(500, FailedInstitutions);
      }
      institutions := institutions + added.value;
    }
    var deduplicated := Deduplicate(institutions, round4);
    reply := Ok(Take(deduplicated, MaxInstitutions));
  }

  /**
   * A successful reply has at most 50 institutions with pairwise different keys, none
   * a university, each with a name longer than 3 characters; it fails only when a
   * request failed or a Nominatim coordinate did not parse.
   */
  lemma InstitutionsFacts(overpass: Option<seq<OsmElement>>, nominatim: Option<seq<NominatimResult>>,
                          parseFloat: string -> Option<real>, round4: real -> real)
    ensures var reply := Institutions(overpass, nominatim, parseFloat, round4);
      reply.Ok? ==>
        && |reply.value| <= MaxInstitutions
        && (forall i, j :: 0 <= i < j < |reply.value| ==> KeyOf(round4, reply.value[i]) != KeyOf(round4, reply.value[j]))
        && (forall inst :: inst in reply.value ==> |inst.name| > 3 && inst.kind != University)
    ensures Institutions(overpass, nominatim, parseFloat, round4).Error? ==>
              overpass.None? || (|OsmInstitutions(overpass.value)| < MinCount && nominatim.None?)
              || NominatimInstitutions(ExistingNames(OsmInstitutions(overpass.value)), nominatim.value, parseFloat).None?
  {
    var reply := Institutions(overpass, nominatim, parseFloat, round4);
    if reply.Ok? {
      var osm := OsmInstitutions(overpass.value);
      var all := if |osm| >= MinCount then osm
                 else osm + NominatimInstitutions(ExistingNames(osm), nominatim.value, parseFloat).value;
      assert reply.value == Take(KeepFirst(all, SameKey(round4)), MaxInstitutions);
      if |osm| < MinCount {
        NominatimInstitutionsFacts(ExistingNames(osm), nominatim.value, parseFloat);
      }
      forall inst | inst in all ensures |inst.name| > 3 && inst.kind != University {
        if inst in osm {
          OsmInstitutionsMember(overpass.value, inst);
        }
      }
      DeduplicateFacts(all, round4);
      KeepFirstUpToFacts(all, |all|, SameKey(round4));
      forall inst | inst in reply.value ensures |inst.name| > 3 && inst.kind != University {
        assert inst in KeepFirst(all, SameKey(round4));
      }
    }
  }

  /** Nominatim is not consulted when Overpass gave at least 20 institutions. */
  lemma NominatimOnlyWhenFew(overpass: seq<OsmElement>, n1: Option<seq<NominatimResult>>, n2: Option<seq<NominatimResult>>,
                             parseFloat: string -> Option<real>, round4: real -> real)
    requires |OsmInstitutions(overpass)| >= MinCount
    ensures Institutions(Some(overpass), n1, parseFloat, round4) == Institutions(Some(overpass), n2, parseFloat, round4)
    ensures Institutions(Some(overpass), n1, parseFloat, round4).Ok?
  {
  }
}
