/**
 * The home page (src/app/page.tsx): it loads the businesses around a fixed point
 * in Coimbatore, derives the distinct categories and the three featured
 * businesses, counts the businesses with a student discount, and builds the URL
 * parameters of a search.
 */
module HomePage {
  import opened Wrappers
  import opened Seqs
  import opened Types
  import Api

  /** The coordinates the home page loads businesses around. */
  const CoimbatoreLat: real := 11.0168
  const CoimbatoreLng: real := 76.9558

  const FeaturedCount: nat := 3

  function CategoryOf(): Business -> string { (b: Business) => b.category }
  function SameCategory(): (string, string) -> bool { (a: string, b: string) => a == b }

  /** `[...new Set(businesses.map(b => b.category))]`: a set keeps insertion order. */
  function UniqueCategories(businesses: seq<Business>): seq<string>
  {
    KeepFirst(Map(businesses, CategoryOf()), SameCategory())
  }

  /**
   * The categories are pairwise distinct, appear in the order of their first
   * occurrence, include the category of every business and nothing else.
   */
  lemma UniqueCategoriesFacts(businesses: seq<Business>)
    ensures Distinct(UniqueCategories(businesses))
    ensures IsSubsequence(UniqueCategories(businesses), Map(businesses, CategoryOf()))
    ensures forall b :: b in businesses ==> b.category in UniqueCategories(businesses)
    ensures forall c :: c in UniqueCategories(businesses) ==> exists b :: b in businesses && b.category == c
    ensures forall i, j :: 0 <= i < j < |UniqueCategories(businesses)| ==>
              && UniqueCategories(businesses)[i] in Map(businesses, CategoryOf())
              && UniqueCategories(businesses)[j] in Map(businesses, CategoryOf())
              && FirstIndex(Map(businesses, CategoryOf()), UniqueCategories(businesses)[i])
                 < FirstIndex(Map(businesses, CategoryOf()), UniqueCategories(businesses)[j])
  {
    FirstOccurrenceOrder(Map(businesses, CategoryOf()), |businesses|);
    var cats := Map(businesses, CategoryOf());
    var r := UniqueCategories(businesses);
    KeepFirstUnique(cats, SameCategory());
    KeepFirstIsSubsequence(cats, SameCategory());
    forall b | b in businesses ensures b.category in r {
      var i :| 0 <= i < |businesses| && businesses[i] == b;
      KeepFirstCovers(cats, i, SameCategory());
    }
    KeepFirstUpToFacts(cats, |cats|, SameCategory());
    forall c | c in r ensures exists b :: b in businesses && b.category == c {
      var k :| 0 <= k < |cats| && cats[k] == c;
      assert businesses[k] in businesses;
    }
  }

  /**
   * The categories kept from the first n are those first met there, ordered by the
   * index of their first occurrence.
   */
  lemma {:induction false} FirstOccurrenceOrder(cats: seq<string>, n: nat)
    requires n <= |cats|
    ensures forall i :: 0 <= i < |KeepFirstUpTo(cats, n, SameCategory())| ==>
              KeepFirstUpTo(cats, n, SameCategory())[i] in cats
              && FirstIndex(cats, KeepFirstUpTo(cats, n, SameCategory())[i]) < n
    ensures forall i, j :: 0 <= i < j < |KeepFirstUpTo(cats, n, SameCategory())| ==>
              KeepFirstUpTo(cats, n, SameCategory())[i] in cats && KeepFirstUpTo(cats, n, SameCategory())[j] in cats
              && FirstIndex(cats, KeepFirstUpTo(cats, n, SameCategory())[i])
                 < FirstIndex(cats, KeepFirstUpTo(cats, n, SameCategory())[j])
  {
    if n > 0 {
      FirstOccurrenceOrder(cats, n - 1);
      var prev := KeepFirstUpTo(cats, n - 1, SameCategory());
      if !HasEarlier(cats, n - 1, SameCategory()) {
        var x := cats[n - 1];
        assert FirstIndex(cats, x) == n - 1;
        var r := prev + [x];
        assert KeepFirstUpTo(cats, n, SameCategory()) == r;
      }
    }
  }

  /** `filteredBusinesses.slice(0, 3)`: the first min(3, n) businesses. */
  function Featured(businesses: seq<Business>): (r: seq<Business>)
    ensures |r| == Min(FeaturedCount, |businesses|)
    ensures forall i :: 0 <= i < |r| ==> r[i] == businesses[i]
  {
    Take(businesses, FeaturedCount)
  }

  function HasDiscount(): Business -> bool { (b: Business) => b.studentDiscount }

  /** `businesses.filter(b => b.studentDiscount).length`. */
  function DiscountCount(businesses: seq<Business>): (n: nat)
    ensures n <= |businesses|
    ensures n == 0 <==> forall b :: b in businesses ==> !b.studentDiscount
  {
    var kept := Filter(businesses, HasDiscount());
    assert forall b :: b in kept <==> b in businesses && b.studentDiscount by {
      forall b ensures b in kept <==> b in businesses && b.studentDiscount {
        FilterMember(businesses, HasDiscount(), b);
      }
    }
    assert |kept| > 0 ==> kept[0] in kept;
    |kept|
  }

  /** Businesses loaded through the API never carry a discount, so the count shown is always 0. */
  lemma LoadedDiscountCountIsZero(response: Option<seq<NearbyBusiness>>, randomId: nat -> string)
    ensures DiscountCount(Api.GetBusinesses(Some(CoimbatoreLat), Some(CoimbatoreLng), response, randomId)) == 0
  {
    var bs := Api.GetBusinesses(Some(CoimbatoreLat), Some(CoimbatoreLng), response, randomId);
    forall b | b in bs ensures !b.studentDiscount {
      var i :| 0 <= i < |bs| && bs[i] == b;
      assert Api.ConvertedFrom(bs[i], Api.FetchNearbyBusinesses(response)[i]);
    }
  }

  /** The entries the home page's `handleSearch` appends: the query, then the institution's name. */
  function HomeSearchParams(query: string, institution: Option<Institution>): seq<Param>
  {
    OptParam(query != "", "search", query)
    + OptParam(institution.Some?, "institution", if institution.Some? then institution.value.name else "")
  }

  /** 'search' is present iff the query is non-empty, 'institution' iff one is selected, and nothing else is written. */
  lemma HomeSearchParamsGet(query: string, institution: Option<Institution>, k: string)
    ensures GetParam(HomeSearchParams(query, institution), k) ==
      if k == "search" && query != "" then Some(query)
      else if k == "institution" && institution.Some? then Some(institution.value.name)
      else None
    ensures |HomeSearchParams(query, institution)| <= 2
  {
    var a := OptParam(query != "", "search", query);
    var b := OptParam(institution.Some?, "institution", if institution.Some? then institution.value.name else "");
    GetParamConcat(a, b, k);
    GetOptParam(query != "", "search", query, k);
    GetOptParam(institution.Some?, "institution", if institution.Some? then institution.value.name else "", k);
    assert |"search"| == 6 && |"institution"| == 11;
  }

  class Home {
    var searchQuery: string
    var selectedInstitution: Option<Institution>
    var businesses: seq<Business>
    var categories: seq<string>

    constructor ()
      ensures searchQuery == "" && selectedInstitution == None && businesses == [] && categories == []
    {
      searchQuery := "";
      selectedInstitution := None;
      businesses := [];
      categories := [];
    }

    /** `filteredBusinesses`: both branches of the selection test give `businesses`. */
    function FilteredBusinesses(): (r: seq<Business>)
      reads this
      ensures r == businesses
    {
      if selectedInstitution.Some? then businesses else businesses
    }

    /** `featuredBusinesses`. */
    function FeaturedBusinesses(): seq<Business>
      reads this
    {
      Featured(FilteredBusinesses())
    }

    /**
     * `loadData`: load the businesses around Coimbatore and derive the categories.
     * `response` stands for the HTTP response; a failed request leaves both lists empty.
     */
    method LoadData(response: Option<seq<NearbyBusiness>>, randomId: nat -> string)
      modifies this`businesses, this`categories
      ensures businesses == Api.GetBusinesses(Some(CoimbatoreLat), Some(CoimbatoreLng), response, randomId)
      ensures categories == UniqueCategories(businesses)
      ensures response.None? ==> businesses == [] && categories == []
      ensures Distinct(categories) && forall b :: b in businesses ==> b.category in categories
    {
      var sampleBusinesses := Api.GetBusinesses(Some(CoimbatoreLat), Some(CoimbatoreLng), response, randomId);
      businesses := sampleBusinesses;
      categories := UniqueCategories(sampleBusinesses);
      UniqueCategoriesFacts(sampleBusinesses);
    }

    /** `handleSearch`: 'search' when the query is set, then the selected institution's name. */
    method HandleSearch() returns (params: seq<Param>)
      ensures params == HomeSearchParams(searchQuery, selectedInstitution)
      ensures GetParam(params, "search") == if searchQuery != "" then Some(searchQuery) else None
      ensures GetParam(params, "institution") ==
                if selectedInstitution.Some? then Some(selectedInstitution.value.name) else None
    {
      var query, institution := searchQuery, selectedInstitution;
      params := [];
      if query != "" {
        params := params + [Param("search", query)];
      }
      if institution.Some? {
        params := params + [Param("institution", institution.value.name)];
      }
      HomeSearchParamsGet(query, institution, "search");
      HomeSearchParamsGet(query, institution, "institution");
    }
  }
}
