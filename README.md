# LocalBiz, modelled in Dafny

LocalBiz is a directory of local businesses around the colleges and schools of
Coimbatore. It has a Next.js front end and a FastAPI backend. This project models the
parts of it that compute something from data already in memory. Each part becomes a
Dafny module named after its source file:

- **Front end.**
  - The businesses page: its filter effect, the state it reads from the URL, `loadData` and `handleSearch` (`BusinessesPage`).
  - The filter sidebar (`FilterSidebar`).
  - The `/api/businesses` route, which turns Overpass elements into `NearbyBusiness` records (`BusinessesRoute`).
  - The client library's `getBusinesses` conversion (`Api`).
  - The `/api/institutions` route (`InstitutionsRoute`).
  - The offline institution snapshot script (`FetchInstitutions`).
  - The institution selector (`InstitutionSelector`).
  - The home page (`HomePage`).
  - The review form (`ReviewForm`).
- **Backend.**
  - The business endpoints, listing through update (`BusinessesRouter`).
  - The institutions merge of `GET /institutions` (`BackendInstitutions`).
  - `GET /nearby-businesses` (`NearbyBusinesses`).
  - The event endpoints (`EventsRouter`).

The tables the routers read and write are a class `Database.Db`. It holds one map per
table from id to row, plus the order in which a table scan returns the rows and the
next id the database hands out. The engine behind the session is a parameter
(`Database.Dialect`): it decides what a negative OFFSET or LIMIT does and whether
LIKE folds case. SQL LIKE, which `column.contains(search)` compiles to, is module
`SqlLike`.

The model's form follows the source:

- Loops that append to a list become methods with loops, and each such method is proved equal to a function of its inputs.
- The `setattr` loops of the update endpoints become loops over an `update_data` list. A lemma proves that the loop replaces exactly the given columns.
- Component state that handlers update in place (the review form, the selector's dialog flag, the pages' state) becomes fields of a class.

Some inputs become parameters:

- HTTP responses (`None` for a failed request or a non-OK status);
- the current user's id and the current time;
- the database engine;
- the random ids;
- the outcome of posting a review;
- the numeric oracles: `parseFloat`/`float()`, `round(x, 4)`, the haversine and planar distances, and `f"{d:.0f}"`.

Shared modules:

- `Seqs`: filter, map, `OFFSET`/`LIMIT` paging, keep-first deduplication (including the JavaScript `findIndex` form), and a stable sort.
- `Text`: ASCII lower-casing, substring search, trimming, splitting and joining.
- `Types`: the front end's record shapes and `URLSearchParams`.
- `Wrappers`: `Option`.

## Model

| member | source | states |
|---|---|---|
| BusinessesPage.FilterBusinesses | src/app/businesses/page.tsx:73-95 | The four guarded filter steps, applied in turn, give exactly one filter of `businesses` by the conjunction of the active conditions. |
| BusinessesPage.FilteredIsSubsequence | src/app/businesses/page.tsx:73-95 | The filtered list is a subsequence of `businesses`: order kept, nothing added. |
| BusinessesPage.FilteredMember | src/app/businesses/page.tsx:76-92 | A business is shown iff it is listed and meets each active condition (name contains query, category listed, rating floor, discount). |
| BusinessesPage.NoFiltersKeepsAll | src/components/ui/FilterSidebar.tsx:31-40 | With an empty query and the filters `clearFilters` produces, nothing is removed. |
| BusinessesPage.FilterEffectIdempotent | src/app/businesses/page.tsx:73-95 | Filtering the filtered list again with the same inputs changes nothing. |
| BusinessesPage.UnusedFiltersIgnored | src/app/businesses/page.tsx:30-37 | Price range, open-now, the filters' own search text and institution never change the result. |
| BusinessesPage.DiscountFilterEmptiesLoadedList | src/app/businesses/page.tsx:90-92 | Businesses loaded through `getBusinesses` never carry a discount, so the discount filter leaves nothing. |
| BusinessesPage.RatingFilterEmptiesRouteList | src/app/businesses/page.tsx:86-88 | Businesses that come from the `/api/businesses` route have rating 0, so any positive rating floor leaves nothing. |
| BusinessesPage.InitialViewMode | src/app/businesses/page.tsx:27 | The view mode is map iff the `map` URL parameter is exactly `true`. |
| BusinessesPage.Page.constructor | src/app/businesses/page.tsx:21-37 | Initial state: empty lists, no institution, loading, query/category/view mode read from the URL, all filters off. |
| BusinessesPage.Page.LoadData | src/app/businesses/page.tsx:40-70 | Institutions stored; with no selected institution both business lists become empty, otherwise both become the converted API result; loading ends. |
| BusinessesPage.Page.ApplyFilters | src/app/businesses/page.tsx:73-95 | `filteredBusinesses` becomes the filter of `businesses` by the active conditions. |
| BusinessesPage.Page.HandleSearch | src/app/businesses/page.tsx:97-105 | Parameters appended in the order search, institution id, category, map; each present iff its state is set; reopening the URL restores query, category and view mode. |
| BusinessesPage.SearchParamsGet | src/app/businesses/page.tsx:98-102 | Reading any key of the built parameters gives exactly the state that was set for it, or nothing. |
| BusinessesPage.SearchParamsRoundTrip | src/app/businesses/page.tsx:25-27 | A page opened with the parameters of a search starts with the same query, category and view mode. |
| FilterSidebar.ClearFilters | src/components/ui/FilterSidebar.tsx:31-40 | Every filter is off: no category or price range, rating 0, both toggles off, empty search and no institution field. |
| FilterSidebar.HandleCategoryChange | src/components/ui/FilterSidebar.tsx:16-29 | Checking leaves the category listed: unchanged if present, appended at the end otherwise. Unchecking removes every occurrence and keeps the others in order. Every other field is copied. |
| FilterSidebar.ToggleKeepsDistinct | src/components/ui/FilterSidebar.tsx:16-24 | A duplicate-free category list stays duplicate-free after a check or an uncheck. |
| FilterSidebar.CheckIdempotent | src/components/ui/FilterSidebar.tsx:18-21 | Checking twice is checking once. |
| FilterSidebar.CheckThenUncheck | src/components/ui/FilterSidebar.tsx:17-24 | Checking then unchecking an absent category restores the list. |
| FilterSidebar.SetStudentDiscount | src/components/ui/FilterSidebar.tsx:70-72 | The discount toggle sets `studentDiscount` and changes no other field. |
| BusinessesRoute.Category | src/app/api/businesses/route.ts:61-72 | The first non-empty of amenity, shop, leisure, tourism with every `_` made a space, else `business`; never empty, never contains `_`. |
| BusinessesRoute.PlaceholderName | src/app/api/businesses/route.ts:80 | The synthesized name is longer than the category and starts with it. |
| BusinessesRoute.Address | src/app/api/businesses/route.ts:85 | `addr:full` when present and non-empty, else `addr:street`; empty exactly when both are missing. |
| BusinessesRoute.ToNearby | src/app/api/businesses/route.ts:59-91 | Name is the `name` tag or the placeholder (which passes the name filter); rating 0, closed, `osm_<id>`, coordinates copied; the address is the tag rule of `Address`; the distance is the given one. |
| BusinessesRoute.Transform | src/app/api/businesses/route.ts:57-93 | At most 50 records, a prefix of the filtered candidates in upstream order, each named, rating 0, closed. |
| BusinessesRoute.Get | src/app/api/businesses/route.ts:4-97 | Missing/empty lat or lng gives the first 400; otherwise an unparsable one gives the second 400; a failed fetch gives `[]`; else the transform. Two non-empty, parsable coordinates always give a JSON list. |
| BusinessesRoute.UnnamedNodeIsListed | src/app/api/businesses/route.ts:80-92 | A tagged node with no name survives the "unnamed" filter under its placeholder name. |
| BusinessesRoute.UnnamedCafeIsListed | src/app/api/businesses/route.ts:80-92 | Concretely, a node tagged only `amenity=cafe_bar` is listed as `cafe bar (1)`. |
| Api.FetchNearbyBusinesses | src/lib/api.ts:18-28 | A failed request gives `[]`, a successful one its body. |
| Api.ToBusiness | src/lib/api.ts:41-62 | Copied fields, `<category> business` description, address or `''`, `Open now` iff open, constant defaults, `place_id` as id when non-empty. |
| Api.ToBusinessRoundTrip | src/lib/api.ts:41-62 | Everything but the distance and the empty-versus-missing address can be read back from the converted record. |
| Api.GetBusinesses | src/lib/api.ts:31-68 | `[]` when either coordinate is falsy (0 included); otherwise one converted record per fetched record, same length and order. |
| InstitutionsRoute.CollectInstitutions | src/app/api/institutions/route.ts:15-50 | The loop's result is the concatenation, in query order, of the in-area items of each successful search. |
| InstitutionsRoute.CollectedMember | src/app/api/institutions/route.ts:17-50 | An item is collected iff some successful search returned it and it passes the area test. |
| InstitutionsRoute.DedupeFacts | src/app/api/institutions/route.ts:52-58 | The `findIndex` dedupe equals keep-first: a subsequence starting with the first item, no two kept items share a place id or coordinates, every first occurrence kept, idempotent. |
| InstitutionsRoute.InstitutionName | src/app/api/institutions/route.ts:62 | The prefix before the first comma, or the whole display name when that prefix is empty. |
| InstitutionsRoute.InstitutionKind | src/app/api/institutions/route.ts:67-68 | College iff the lowered display name contains college or university; never university. |
| InstitutionsRoute.ToInstitution | src/app/api/institutions/route.ts:61-70 | Address and display name equal the item's display name; place id copied; name and kind as above. |
| InstitutionsRoute.Get | src/app/api/institutions/route.ts:3-72 | The response maps the deduplicated collection one to one; no entry is a university. |
| InstitutionsRoute.GetFacts | src/app/api/institutions/route.ts:36-70 | Every entry comes from an in-area item of a successful search, and no two share a place id. |
| InstitutionsRoute.DedupedFromSearch | src/app/api/institutions/route.ts:18-57 | An item of the deduplicated list is in the area and was returned by a successful search. |
| FetchInstitutions.TypeFromTag | scripts/fetch_institutions.js:36-42 | University iff the tag contains university; college iff it contains college but not university; else school. |
| FetchInstitutions.InferType | scripts/fetch_institutions.js:34-43 | A non-empty amenity alone decides; otherwise the education tag does. |
| FetchInstitutions.AddressParts | scripts/fetch_institutions.js:46-49 | Only non-empty parts, empty iff street, city and postcode are all missing. |
| FetchInstitutions.JoinOfNonEmptyParts | scripts/fetch_institutions.js:50 | Joining non-empty parts is empty only for no parts, and starts with the first part. |
| FetchInstitutions.Address | scripts/fetch_institutions.js:46-58 | The joined parts, else the display name; `undefined` exactly when all are missing; never the empty string. |
| FetchInstitutions.ToRecord | scripts/fetch_institutions.js:52-59 | `inst_<id>`, the non-empty name, coordinates copied, inferred type and built address. |
| FetchInstitutions.ToRecords | scripts/fetch_institutions.js:30-60 | One record per named node, same length and order. |
| FetchInstitutions.ProcessFacts | scripts/fetch_institutions.js:28-64 | Every saved record comes from a named node, has a name and non-zero coordinates, and no two share a (name, lat, lon) triple. |
| FetchInstitutions.ProcessKeepsEveryTriple | scripts/fetch_institutions.js:61-64 | Every record passing the required-field filter has a saved record with its triple; deduplicating again changes nothing. |
| InstitutionSelector.ByNameIsTotalPreorder | src/components/ui/InstitutionSelector.tsx:37-38 | The name comparator is total and transitive. |
| InstitutionSelector.TabsSortedPermutations | src/components/ui/InstitutionSelector.tsx:37-38 | Each tab is sorted by name and is a permutation of the institutions of its type. |
| InstitutionSelector.TabMembership | src/components/ui/InstitutionSelector.tsx:37-38 | An institution is in the colleges (schools) tab iff it is a listed college (school). |
| InstitutionSelector.TabsCoverNonUniversities | src/components/ui/InstitutionSelector.tsx:37-38 | No university appears; the two tabs together have as many entries as the non-universities. |
| InstitutionSelector.AtMostOneMarked | src/components/ui/InstitutionSelector.tsx:96-97 | With distinct ids at most one entry is marked selected, and none without a selection. |
| InstitutionSelector.Selector.constructor | src/components/ui/InstitutionSelector.tsx:20 | The dialog starts closed. |
| InstitutionSelector.Selector.HandleSelect | src/components/ui/InstitutionSelector.tsx:40-43 | Reports the chosen institution and closes the dialog. |
| InstitutionSelector.Selector.HandleClear | src/components/ui/InstitutionSelector.tsx:45-48 | Reports no institution and closes the dialog. |
| HomePage.UniqueCategoriesFacts | src/app/page.tsx:43 | The categories are distinct, include every business's category and nothing else, and are ordered by the index of their first occurrence. |
| HomePage.FirstOccurrenceOrder | src/app/page.tsx:43 | Among the first n categories, the kept ones first occur before n and in increasing order of first occurrence. |
| HomePage.Featured | src/app/page.tsx:33 | The first min(3, n) businesses. |
| HomePage.DiscountCount | src/app/page.tsx:203 | At most n, and 0 iff no business has a discount. |
| HomePage.LoadedDiscountCountIsZero | src/app/page.tsx:39-40 | Businesses loaded for the home page never carry a discount, so the count is 0. |
| HomePage.HomeSearchParamsGet | src/app/page.tsx:22-26 | `search` present iff the query is non-empty, `institution` (the name) iff one is selected, nothing else. |
| HomePage.Home.constructor | src/app/page.tsx:17-20 | Empty query, no institution, empty lists. |
| HomePage.Home.FilteredBusinesses | src/app/page.tsx:29-31 | Both branches give `businesses`. |
| HomePage.Home.LoadData | src/app/page.tsx:35-50 | Businesses around Coimbatore and their distinct categories; both empty when the request fails. |
| HomePage.Home.HandleSearch | src/app/page.tsx:22-27 | Search parameter iff the query is set, then the selected institution's name. |
| ReviewForm.Validate | src/components/ui/ReviewForm.tsx:20-34 | Checks in order rating, comment, business id; the first failure's message, or none iff all pass. |
| ReviewForm.Form.constructor | src/components/ui/ReviewForm.tsx:15-18 | Rating 0, no hover, empty comment. |
| ReviewForm.Form.Shown | src/components/ui/ReviewForm.tsx:61 | The hovered rating while hovering, else the chosen one; at most 5. |
| ReviewForm.Form.Stars | src/components/ui/ReviewForm.tsx:57-64 | Five stars; star i lit iff i < shown rating; lit stars form a prefix. |
| ReviewForm.Form.ClickStar | src/components/ui/ReviewForm.tsx:67 | Clicking star i sets the rating to i + 1, keeping it in 0..5. |
| ReviewForm.Form.HoverStar | src/components/ui/ReviewForm.tsx:65 | Hovering star i previews i + 1. |
| ReviewForm.Form.LeaveStar | src/components/ui/ReviewForm.tsx:66 | Leaving ends the preview. |
| ReviewForm.Form.SetComment | src/components/ui/ReviewForm.tsx:78 | The comment becomes the typed text. |
| ReviewForm.Form.HandleSubmit | src/components/ui/ReviewForm.tsx:20-45 | A failed check is reported and nothing is posted; otherwise the review is posted as Anonymous; success resets rating and comment, failure or rejection changes nothing. |
| BusinessesRouter.GetBusinesses | backend/routers/businesses.py:13-29 | The rows of the scan that match the given category and search text, paged by the engine's OFFSET/LIMIT rule for any integers, a negative one included. |
| BusinessesRouter.ListedBusinesses | backend/routers/businesses.py:13-29 | A 500 iff PostgreSQL meets a negative skip or limit; otherwise at most `limit` rows when it is not negative, and all selected rows for a negative limit and a non-positive skip; a row is selected iff it is stored, in the exact category when one is given, and its name or description is LIKE `%search%` when a search is given, with the engine's case rule and escape character. |
| BusinessesRouter.LiteralSearch | backend/routers/businesses.py:26-27 | For a search without `%` or `_`, and on PostgreSQL also without `\`, the text filter is substring containment in name or description: exact on PostgreSQL, ASCII case-folded on SQLite. |
| SqlLike.ContainsLiteral | backend/routers/businesses.py:26-27 | `contains` with a search free of special characters (`%`, `_`, and `\` where it escapes) holds iff the search matches the text at some position, character by character under the case rule. |
| SqlLike.ContainsLikeExact | backend/routers/businesses.py:26-27 | Under an exact LIKE, such a `contains` is substring containment. |
| SqlLike.ContainsLikeFolded | backend/routers/businesses.py:26-27 | Under a case-folding LIKE, such a `contains` is substring containment of the lower-cased strings. |
| SqlLike.BackslashSearch | backend/routers/businesses.py:26-27 | Where `\` escapes, a search of `\` keeps exactly the texts ending in `%`. |
| SqlLike.EscapedLetter | backend/routers/businesses.py:26-27 | Where `\` escapes, the search `a\b` keeps the text `ab`; where it does not, it does not. |
| SqlLike.WildcardSearches | backend/routers/businesses.py:26-27 | A search of `%` keeps every row; a search of `_` keeps exactly the rows whose text is non-empty. |
| Database.Paged | backend/routers/businesses.py:29 | An error iff PostgreSQL meets a negative bound, and then a 500; otherwise `min(limit, remaining)` rows (all remaining for a negative limit) copied in order from row `max(skip, 0)` on. |
| Database.PagedEverything | backend/routers/events.py:24 | On SQLite a non-positive skip and a negative limit return every row. |
| Database.PagedSorted | backend/routers/events.py:22-24 | A page of start-date-ordered rows is ordered. |
| Database.PagedMember | backend/routers/events.py:24 | Every paged row is an input row. |
| BusinessesRouter.GetBusiness | backend/routers/businesses.py:56-58 | 404 "Business not found" iff the id is absent, else the stored row. |
| BusinessesRouter.CreateBusiness | backend/routers/businesses.py:94-111 | A fresh id holding the given columns, unverified, not featured, owned by the current user, appended to the business scan order; events, their order and the next event id are unchanged. |
| BusinessesRouter.ApplyGivenEntries | backend/routers/businesses.py:137-151 | Applying the given entries in order is visiting every parameter and setting the given ones. |
| BusinessesRouter.SetEachIsPatched | backend/routers/businesses.py:138-148 | Visiting the eleven parameters in order replaces exactly the given columns. |
| BusinessesRouter.UpdateDataPatches | backend/routers/businesses.py:137-151 | The `setattr` loop over `update_data` yields the row with exactly the non-None columns replaced. |
| BusinessesRouter.SetAttrs | backend/routers/businesses.py:150-151 | The loop applies the entries of `update_data` in order. |
| BusinessesRouter.PatchedFacts | backend/routers/businesses.py:137-151 | Owner and flags kept, given columns set, others kept, the empty update is the identity, and patching is idempotent. |
| BusinessesRouter.UpdateBusiness | backend/routers/businesses.py:130-154 | 404 before 403; 403 exactly when another user owns the row; otherwise only that row changes, to the patched row; events, both scan orders and the next ids untouched. |
| BackendInstitutions.Get | backend/routers/businesses.py:185 | Python's `dict.get`: the value when the key is present, else the default. |
| BackendInstitutions.OsmKind | backend/routers/businesses.py:192 | College iff the lowered amenity contains college or university; never university. |
| BackendInstitutions.FromOsm | backend/routers/businesses.py:190-197 | Name longer than 3, non-zero coordinates, `osm_<id>`. |
| BackendInstitutions.CollectOsm | backend/routers/businesses.py:183-197 | The Overpass loop appends one record per listed element, in order. |
| BackendInstitutions.OsmInstitutionsMember | backend/routers/businesses.py:183-197 | A record is collected iff some element has tags, a name longer than 3 and non-zero coordinates and maps to it. |
| BackendInstitutions.ExistingNames | backend/routers/businesses.py:211 | Exactly the lowered names of the Overpass-phase records. |
| BackendInstitutions.NominatimKind | backend/routers/businesses.py:217 | College iff the lowered display name contains college; never university. |
| BackendInstitutions.FromNominatim | backend/routers/businesses.py:215-222 | First comma field as name, display name as address, `nominatim_<place_id>`. |
| BackendInstitutions.CollectNominatim | backend/routers/businesses.py:212-222 | The Nominatim loop appends one record per new long name, and aborts on an unparsable coordinate. |
| BackendInstitutions.NominatimAbortStays | backend/routers/businesses.py:219-220 | Once a listed item's coordinate fails to parse, the whole phase fails whatever follows. |
| BackendInstitutions.NominatimInstitutionsFacts | backend/routers/businesses.py:212-222 | Every appended record has a name longer than 3 whose lowered form is not among the Overpass names, and is not a university. |
| BackendInstitutions.Deduplicate | backend/routers/businesses.py:225-231 | The `seen`-set loop keeps the first institution per (lowered name, rounded lat, rounded lon). |
| BackendInstitutions.DeduplicateFacts | backend/routers/businesses.py:225-231 | The result is a subsequence, its keys are pairwise distinct, and every input key has a kept institution. |
| BackendInstitutions.GetInstitutions | backend/routers/businesses.py:161-236 | The endpoint returns what the merge function describes, including the 500 cases. |
| BackendInstitutions.InstitutionsFacts | backend/routers/businesses.py:183-236 | A success has at most 50 entries with distinct keys, names longer than 3 and no university; a 500 has one of the failed requests or a bad coordinate as cause. |
| BackendInstitutions.NominatimOnlyWhenFew | backend/routers/businesses.py:200 | With at least 20 Overpass records the Nominatim response does not matter. |
| NearbyBusinesses.Trunc | backend/routers/businesses.py:320 | `int(x)` truncates toward zero. |
| NearbyBusinesses.TruncWithin | backend/routers/businesses.py:314-320 | A distance within the radius stays within it after truncation. |
| NearbyBusinesses.ResultCategory | backend/routers/businesses.py:317 | The given category when truthy, else the amenity tag when present. |
| NearbyBusinesses.ToResult | backend/routers/businesses.py:315-325 | Rating 4.0, truncated distance, coordinates, `osm_<id>`. |
| NearbyBusinesses.CollectNearby | backend/routers/businesses.py:297-325 | The Overpass loop appends one result per named place within the radius, in order. |
| NearbyBusinesses.NearbyResultsFacts | backend/routers/businesses.py:297-325 | Every result lies within the radius and has rating 4.0. |
| NearbyBusinesses.GetNearbyBusinesses | backend/routers/businesses.py:249-366 | The endpoint returns what the nearby function describes, 500 on a failed request. |
| NearbyBusinesses.NearbyFacts | backend/routers/businesses.py:314-363 | At most 50 results within the radius; by distance, sorted and a permutation; by rating or an unknown key, the collection order. |
| EventsRouter.EventBusiness | backend/routers/events.py:35-38 | `event.business` exists iff the event has a business id that is stored. |
| EventsRouter.View | backend/routers/events.py:28-39 | The `business` payload is null exactly when the event has no business. |
| EventsRouter.GetEvents | backend/routers/events.py:11-42 | A 500 exactly when the engine rejects the paging; otherwise one view per event of the filtered, start-date-ordered, paged rows. |
| EventsRouter.Views | backend/routers/events.py:26-41 | The response loop builds one view per event of the page, in order. |
| EventsRouter.SelectedFacts | backend/routers/events.py:11-24 | A 500 iff PostgreSQL meets a negative skip or limit; otherwise at most `limit` rows when it is not negative, ordered by start date, with `upcoming` only events starting at or after now; the ordering is a permutation of the filtered rows. |
| EventsRouter.SelectedUpcoming | backend/routers/events.py:20-22 | With `upcoming`, every selected event starts at or after now. |
| EventsRouter.GetEvent | backend/routers/events.py:46-61 | 404 "Event not found" iff the id is absent, else that event's view. |
| EventsRouter.CreateCheck | backend/routers/events.py:75-80 | No check without a truthy business id; else 404 for a missing business, then 403 exactly when another user owns it. |
| EventsRouter.CreateEvent | backend/routers/events.py:75-93 | After a failed check nothing changes (rows, scan orders, next ids); otherwise a fresh id holds the event with the business id as given and is appended to the event scan order. Businesses are never touched. |
| EventsRouter.ApplyGivenEntries | backend/routers/events.py:114-122 | Applying the given entries in order is visiting every parameter and setting the given ones. |
| EventsRouter.SetEachIsPatched | backend/routers/events.py:115-119 | Visiting the five parameters in order replaces exactly the given columns. |
| EventsRouter.UpdateDataPatches | backend/routers/events.py:114-122 | The `setattr` loop over `update_data` yields the row with exactly the non-None columns replaced. |
| EventsRouter.SetAttrs | backend/routers/events.py:121-122 | The loop applies the entries of `update_data` in order. |
| EventsRouter.PatchedFacts | backend/routers/events.py:114-122 | The business id is kept, given columns set, others kept, the empty update is the identity, patching is idempotent. |
| EventsRouter.UpdateEvent | backend/routers/events.py:106-125 | 404, then 403 exactly when the event's business is owned by another user; otherwise only that event changes, to the patched row; businesses, both scan orders and the next ids untouched. |
| EventsRouter.DeleteEvent | backend/routers/events.py:133-143 | 404, then 403 as for update, both changing nothing; otherwise exactly that event is removed, from the table and from the scan order, and nothing else changes. |
| EventsRouter.NoBusinessMayChange | backend/routers/events.py:110-112 | An event without a business may be changed by anyone. |

## Left out

- HTTP requests are not modelled. This covers Overpass, Nominatim, Google Places, `/api/businesses` and `/api/institutions`. Each response is an input, with `None` for a failure.
- The body of a 500 response carries only its fixed prefix. The exception text that follows it is not modelled.
- Floating point is not modelled. Coordinates and ratings are reals. The planar and haversine distances, `round(x, 4)`, `parseFloat`/`float()` and `f"{d:.0f}"` are parameters.
- Unicode and locale behaviour is not modelled. `toLowerCase`/`.lower()` is ASCII lower-casing. `localeCompare` is lexicographic order on character codes. `trim` strips ASCII whitespace. SQL LIKE's case rule and escape character are the engine's: on PostgreSQL exact, with `\` escaping; on SQLite ASCII letters folded, with no escape character.
- The SQL tie order is not modelled. `ORDER BY start_date` leaves it unspecified, and the model uses a stable sort over the scan order. Python's in-place `businesses.sort` is modelled the same way on values.
- The Overpass QL and Nominatim query texts are templates in a foreign language. This includes the nearby category mapping, which only changes the query text.
- Google Places in `get_nearby_businesses`: only the branch without an API key is modelled.
- `get_real_data` (backend/routers/businesses.py:368-397) only calls the two modelled endpoints and is not part of this model.
- Routing is not modelled; each endpoint is its handler function. In backend/routers/businesses.py, `GET /{business_id}` (line 54) is declared before `GET /institutions` (156), `GET /nearby-businesses` (238) and `GET /real-data` (368). FastAPI tries routes in declaration order, so those three paths reach `get_business`, whose integer check rejects them with a 422; as written they are unreachable over HTTP.
- Random ids (`business_<Math.random()>`) are a parameter.
- The race between superseded `loadData` calls, React scheduling and rendering are concurrency and presentation.
- Posting a review goes to an `api.postReview` the client library does not define. Only its outcome is an input.
- `ReviewForm.Form.HandleSubmit`: the `onSuccess?.(created)` call after a successful post (src/components/ui/ReviewForm.tsx:40) runs the parent's code and is not modelled; the contract covers the form's own state.
- The snapshot script's file write and error exit, and the client's static JSON import, are I/O.
- The `city` parameter of the institutions route is unused.
- A search result without `display_name` makes that search's filter throw (src/app/api/institutions/route.ts:37); the inner catch (lines 46-48) then drops the whole search, which the model covers as a failed search (`None`). Results are otherwise assumed well formed, so the outer 500 (lines 73-78), which only code after the loop could reach, is not modelled.
- Authentication (backend/routers/auth.py, `get_current_user`) and app wiring (backend/main.py) are not part of this model. The current user is an id.
- These are not part of this model:
  - the presentational components, the dashboard page (its submit is a stub) and the events page (mock data);
  - reviews, photos and users.
- The database engine is not named by these files. It is a parameter (`Database.Dialect`) with two modelled rules, SQLite's and PostgreSQL's; other engines are not modelled.
- Database rows carry only the columns the modelled endpoints read or write. Dates are integers on one clock, and the response dictionaries keep only the fields the model reasons about.
- The "Filter out unnamed businesses" step of src/app/api/businesses/route.ts:92 is modelled as written. It drops records whose name equals their category. An element without a `name` tag gets a placeholder name and is kept (`BusinessesRoute.UnnamedNodeIsListed`).
- `BusinessesRoute.Transform`: the planar distance is a parameter, so no bound on it is stated.
