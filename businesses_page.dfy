/**
 * The businesses page (src/app/businesses/page.tsx): its state, the filter
 * effect that narrows `businesses` to `filteredBusinesses`, the initial state
 * read from the URL, `loadData`, and `handleSearch`, which builds the URL
 * parameters of the next search.
 */
module BusinessesPage {
  import opened Wrappers
  import opened Seqs
  import opened Text
  import opened Types
  import FilterSidebar
  import Api
  import BusinessesRoute

  datatype ViewMode = ListView | MapView

  /** `b.name.toLowerCase().includes(searchQuery.toLowerCase())`. */
  predicate NameMatches(b: Business, query: string)
  {
    Contains(Lower(b.name), Lower(query))
  }

  function ByName(query: string): Business -> bool { (b: Business) => NameMatches(b, query) }
  function ByCategory(categories: seq<string>): Business -> bool { (b: Business) => b.category in categories }
  function ByRating(floor: real): Business -> bool { (b: Business) => b.rating >= floor }
  function ByDiscount(): Business -> bool { (b: Business) => b.studentDiscount }

  /** The conditions of the first `steps` steps of the filter effect (there are four). */
  function PassesSteps(query: string, filters: FilterOptions, steps: nat): Business -> bool
  {
    (b: Business) =>
      && (steps > 0 && query != "" ==> NameMatches(b, query))
      && (steps > 1 && |filters.category| > 0 ==> b.category in filters.category)
      && (steps > 2 && filters.rating > 0.0 ==> b.rating >= filters.rating)
      && (steps > 3 && filters.studentDiscount ==> b.studentDiscount)
  }

  /** A business is shown when it passes every active filter. */
  function PassesAll(query: string, filters: FilterOptions): Business -> bool
  {
    PassesSteps(query, filters, 4)
  }

  /**
   * The filter effect: start from all businesses and narrow by each active filter in
   * turn. The result is one filter by the conjunction of the active conditions.
   */
  method FilterBusinesses(businesses: seq<Business>, searchQuery: string, filters: FilterOptions)
    returns (filtered: seq<Business>)
    ensures filtered == Filter(businesses, PassesAll(searchQuery, filters))
  {
    filtered := businesses;
    FilterKeepsAll(businesses, PassesSteps(searchQuery, filters, 0));

    if searchQuery != "" {
      filtered := Filter(filtered, ByName(searchQuery));
      FilterFilter(businesses, PassesSteps(searchQuery, filters, 0), ByName(searchQuery),
                   PassesSteps(searchQuery, filters, 1));
    } else {
      FilterAgree(businesses, PassesSteps(searchQuery, filters, 0), PassesSteps(searchQuery, filters, 1));
    }
    assert filtered == Filter(businesses, PassesSteps(searchQuery, filters, 1));

    if |filters.category| > 0 {
      filtered := Filter(filtered, ByCategory(filters.category));
      FilterFilter(businesses, PassesSteps(searchQuery, filters, 1), ByCategory(filters.category),
                   PassesSteps(searchQuery, filters, 2));
    } else {
      FilterAgree(businesses, PassesSteps(searchQuery, filters, 1), PassesSteps(searchQuery, filters, 2));
    }
    assert filtered == Filter(businesses, PassesSteps(searchQuery, filters, 2));

    if filters.rating > 0.0 {
      filtered := Filter(filtered, ByRating(filters.rating));
      FilterFilter(businesses, PassesSteps(searchQuery, filters, 2), ByRating(filters.rating),
                   PassesSteps(searchQuery, filters, 3));
    } else {
      FilterAgree(businesses, PassesSteps(searchQuery, filters, 2), PassesSteps(searchQuery, filters, 3));
    }
    assert filtered == Filter(businesses, PassesSteps(searchQuery, filters, 3));

    if filters.studentDiscount {
      filtered := Filter(filtered, ByDiscount());
      FilterFilter(businesses, PassesSteps(searchQuery, filters, 3), ByDiscount(),
                   PassesSteps(searchQuery, filters, 4));
    } else {
      FilterAgree(businesses, PassesSteps(searchQuery, filters, 3), PassesSteps(searchQuery, filters, 4));
    }
  }

  /** The filtered list keeps the order of `businesses` and adds nothing. */
  lemma FilteredIsSubsequence(businesses: seq<Business>, query: string, filters: FilterOptions)
    ensures IsSubsequence(Filter(businesses, PassesAll(query, filters)), businesses)
  {
    FilterIsSubsequence(businesses, PassesAll(query, filters));
  }

  /** A business is shown exactly when it is listed and meets each active condition. */
  lemma FilteredMember(businesses: seq<Business>, query: string, filters: FilterOptions, b: Business)
    ensures b in Filter(businesses, PassesAll(query, filters)) <==>
      && b in businesses
      && (query != "" ==> Contains(Lower(b.name), Lower(query)))
      && (|filters.category| > 0 ==> b.category in filters.category)
      && (filters.rating > 0.0 ==> b.rating >= filters.rating)
      && (filters.studentDiscount ==> b.studentDiscount)
  {
    FilterMember(businesses, PassesAll(query, filters), b);
  }

  /** With no query and every filter off, nothing is removed. */
  lemma NoFiltersKeepsAll(businesses: seq<Business>)
    ensures Filter(businesses, PassesAll("", FilterSidebar.ClearFilters())) == businesses
  {
    FilterKeepsAll(businesses, PassesAll("", FilterSidebar.ClearFilters()));
  }

  /** Filtering the filtered list again with the same inputs changes nothing. */
  lemma FilterEffectIdempotent(businesses: seq<Business>, query: string, filters: FilterOptions)
    ensures Filter(Filter(businesses, PassesAll(query, filters)), PassesAll(query, filters))
         == Filter(businesses, PassesAll(query, filters))
  {
    FilterIdempotent(businesses, PassesAll(query, filters));
  }

  /** The price range, open-now flag, the filters' own search text and the institution never matter. */
  lemma UnusedFiltersIgnored(businesses: seq<Business>, query: string, filters: FilterOptions,
                             priceRange: seq<string>, openNow: bool, searchQuery: string, institution: Option<string>)
    ensures Filter(businesses, PassesAll(query, filters))
         == Filter(businesses, PassesAll(query, filters.(priceRange := priceRange, openNow := openNow,
                                                          searchQuery := searchQuery, institution := institution)))
  {
    FilterAgree(businesses, PassesAll(query, filters),
                PassesAll(query, filters.(priceRange := priceRange, openNow := openNow,
                                          searchQuery := searchQuery, institution := institution)));
  }

  /**
   * Businesses loaded through the API carry no student discount, so turning the
   * discount filter on leaves nothing to show.
   */
  lemma DiscountFilterEmptiesLoadedList(lat: Option<real>, lng: Option<real>, response: Option<seq<NearbyBusiness>>,
                                        randomId: nat -> string, query: string, filters: FilterOptions)
    requires filters.studentDiscount
    ensures Filter(Api.GetBusinesses(lat, lng, response, randomId), PassesAll(query, filters)) == []
  {
    var bs := Api.GetBusinesses(lat, lng, response, randomId);
    forall i | 0 <= i < |bs| ensures !PassesAll(query, filters)(bs[i]) {
      assert Api.ConvertedFrom(bs[i], Api.FetchNearbyBusinesses(response)[i]);
    }
    FilterNone(bs, PassesAll(query, filters));
  }


  /**
   * Businesses that reach the page from the `/api/businesses` route all have rating 0,
   * so any positive rating floor leaves nothing to show.
   */
  lemma RatingFilterEmptiesRouteList(lat: Option<real>, lng: Option<real>, elements: seq<Element>,
                                     distance: Element -> int, randomId: nat -> string,
                                     query: string, filters: FilterOptions)
    requires filters.rating > 0.0
    ensures Filter(Api.GetBusinesses(lat, lng, Some(BusinessesRoute.Transform(elements, distance)), randomId),
                   PassesAll(query, filters)) == []
  {
    var nbs := BusinessesRoute.Transform(elements, distance);
    var bs := Api.GetBusinesses(lat, lng, Some(nbs), randomId);
    forall i | 0 <= i < |bs| ensures !PassesAll(query, filters)(bs[i]) {
      assert Api.ConvertedFrom(bs[i], nbs[i]);
      assert nbs[i] in nbs;
    }
    FilterNone(bs, PassesAll(query, filters));
  }


  /** `searchParams.get('search') || ''`. */
  function InitialSearchQuery(params: seq<Param>): string
  {
    GetParam(params, "search").GetOr("")
  }

  /** `searchParams.get('category') || ''`. */
  function InitialCategory(params: seq<Param>): string
  {
    GetParam(params, "category").GetOr("")
  }

  /** `searchParams.get('map') === 'true' ? 'map' : 'list'`. */
  function InitialViewMode(params: seq<Param>): (v: ViewMode)
    ensures v == MapView <==> GetParam(params, "map") == Some("true")
  {
    if GetParam(params, "map") == Some("true") then MapView else ListView
  }

  /** The filters the page starts with. */
  function InitialFilters(): FilterOptions
  {
    FilterOptions([], [], 0.0, false, false, "", None)
  }

  class Page {
    var businesses: seq<Business>
    var filteredBusinesses: seq<Business>
    var selectedInstitution: Option<Institution>
    var institutions: seq<Institution>
    var searchQuery: string
    const selectedCategory: string
    var viewMode: ViewMode
    var loading: bool
    var filters: FilterOptions

    /** The first render, with the state read from the page URL. */
    constructor (urlParams: seq<Param>)
      ensures businesses == [] && filteredBusinesses == [] && institutions == []
      ensures selectedInstitution == None && loading
      ensures searchQuery == InitialSearchQuery(urlParams)
      ensures selectedCategory == InitialCategory(urlParams)
      ensures viewMode == InitialViewMode(urlParams)
      ensures filters == InitialFilters()
    {
      businesses := [];
      filteredBusinesses := [];
      selectedInstitution := None;
      institutions := [];
      searchQuery := InitialSearchQuery(urlParams);
      selectedCategory := InitialCategory(urlParams);
      viewMode := InitialViewMode(urlParams);
      loading := true;
      filters := InitialFilters();
    }

    /**
     * `loadData`: store the institutions, then load the businesses around the selected
     * institution, or clear both lists when none is selected. `response` and `randomId`
     * stand for the HTTP response and the random ids inside `getBusinesses`.
     */
    method LoadData(institutionsData: seq<Institution>, response: Option<seq<NearbyBusiness>>, randomId: nat -> string)
      modifies this
      ensures institutions == institutionsData && !loading
      ensures old(selectedInstitution).None? ==> businesses == [] && filteredBusinesses == []
      ensures old(selectedInstitution).Some? ==>
        var inst := old(selectedInstitution).value;
        && businesses == Api.GetBusinesses(Some(inst.lat), Some(inst.lon), response, randomId)
        && filteredBusinesses == businesses
      ensures selectedInstitution == old(selectedInstitution) && searchQuery == old(searchQuery)
      ensures viewMode == old(viewMode) && filters == old(filters)
    {
      loading := true;
      institutions := institutionsData;
      if selectedInstitution.Some? {
        var businessesData := Api.GetBusinesses(Some(selectedInstitution.value.lat), Some(selectedInstitution.value.lon),
                                                response, randomId);
        businesses := businessesData;
        filteredBusinesses := businessesData;
      } else {
        businesses := [];
        filteredBusinesses := [];
      }
      loading := false;
    }

    /** The filter effect, run whenever the query, the filters or the businesses change. */
    method ApplyFilters()
      modifies this`filteredBusinesses
      ensures filteredBusinesses == Filter(businesses, PassesAll(searchQuery, filters))
    {
      filteredBusinesses := FilterBusinesses(businesses, searchQuery, filters);
    }

    /**
     * `handleSearch`: the URL parameters of the next search, appended one by one for
     * each piece of state that is set.
     */
    method HandleSearch() returns (params: seq<Param>)
      ensures params == SearchParams(searchQuery, selectedInstitution, selectedCategory, viewMode)
      ensures GetParam(params, "search") == if searchQuery != "" then Some(searchQuery) else None
      ensures GetParam(params, "institution") ==
                if selectedInstitution.Some? then Some(selectedInstitution.value.id) else None
      ensures InitialSearchQuery(params) == searchQuery
      ensures InitialCategory(params) == selectedCategory
      ensures InitialViewMode(params) == viewMode
    {
      var query, institution, category, mode := searchQuery, selectedInstitution, selectedCategory, viewMode;
      ghost var a := OptParam(query != "", "search", query);
      ghost var b := OptParam(institution.Some?, "institution", if institution.Some? then institution.value.id else "");
      ghost var c := OptParam(category != "", "category", category);
      ghost var d := OptParam(mode == MapView, "map", "true");
      params := [];
      if query != "" {
        params := params + [Param("search", query)];
      }
      assert params == a;
      if institution.Some? {
        params := params + [Param("institution", institution.value.id)];
      }
      assert params == a + b;
      if category != "" {
        params := params + [Param("category", category)];
      }
      assert params == a + b + c;
      if mode == MapView {
        params := params + [Param("map", "true")];
      }
      assert params == a + b + c + d;
      SearchParamsGet(searchQuery, selectedInstitution, selectedCategory, viewMode, "search");
      SearchParamsGet(searchQuery, selectedInstitution, selectedCategory, viewMode, "institution");
      SearchParamsRoundTrip(searchQuery, selectedInstitution, selectedCategory, viewMode);
    }
  }

  /** The entries `handleSearch` appends, in its order. */
  function SearchParams(query: string, institution: Option<Institution>, category: string, mode: ViewMode): seq<Param>
  {
    OptParam(query != "", "search", query)
    + OptParam(institution.Some?, "institution", if institution.Some? then institution.value.id else "")
    + OptParam(category != "", "category", category)
    + OptParam(mode == MapView, "map", "true")
  }

  /**
   * `get` on the parameters of a search finds exactly the state that was set: every
   * key is written at most once, so no later entry shadows an earlier one.
   */
  lemma SearchParamsGet(query: string, institution: Option<Institution>, category: string, mode: ViewMode, k: string)
    ensures GetParam(SearchParams(query, institution, category, mode), k) ==
      if k == "search" && query != "" then Some(query)
      else if k == "institution" && institution.Some? then Some(institution.value.id)
      else if k == "category" && category != "" then Some(category)
      else if k == "map" && mode == MapView then Some("true")
      else None
  {
    var a := OptParam(query != "", "search", query);
    var b := OptParam(institution.Some?, "institution", if institution.Some? then institution.value.id else "");
    var c := OptParam(category != "", "category", category);
    var d := OptParam(mode == MapView, "map", "true");
    assert SearchParams(query, institution, category, mode) == a + (b + (c + d));
    GetParamConcat(a, b + (c + d), k);
    GetParamConcat(b, c + d, k);
    GetParamConcat(c, d, k);
    GetOptParam(query != "", "search", query, k);
    GetOptParam(institution.Some?, "institution", if institution.Some? then institution.value.id else "", k);
    GetOptParam(category != "", "category", category, k);
    GetOptParam(mode == MapView, "map", "true", k);
    assert |"search"| == 6 && |"institution"| == 11 && |"category"| == 8 && |"map"| == 3;
  }

  /** A page opened with the parameters of a search starts with the same query, category and view mode. */
  lemma SearchParamsRoundTrip(query: string, institution: Option<Institution>, category: string, mode: ViewMode)
    ensures InitialSearchQuery(SearchParams(query, institution, category, mode)) == query
    ensures InitialCategory(SearchParams(query, institution, category, mode)) == category
    ensures InitialViewMode(SearchParams(query, institution, category, mode)) == mode
  {
    SearchParamsGet(query, institution, category, mode, "search");
    SearchParamsGet(query, institution, category, mode, "category");
    SearchParamsGet(query, institution, category, mode, "map");
  }
}
