/**
 * The filter sidebar (src/components/ui/FilterSidebar.tsx): checking and
 * unchecking a category, toggling the student-discount flag, and clearing all
 * filters. Each handler passes a new `FilterOptions` record to the page.
 */
module FilterSidebar {
  import opened Wrappers
  import opened Seqs
  import opened Types

  /** The test `c !== category` used to drop a category. */
  function Other(category: string): string -> bool
  {
    c => c != category
  }

  /** The category list after checking (`checked`) or unchecking `category`. */
  function ToggledCategories(categories: seq<string>, category: string, checked: bool): seq<string>
  {
    if checked then (if category in categories then categories else categories + [category])
    else Filter(categories, Other(category))
  }

  /** `handleCategoryChange`: copy the list, push the category if missing, or filter it out. */
  method HandleCategoryChange(filters: FilterOptions, category: string, checked: bool) returns (next: FilterOptions)
    ensures next == filters.(category := ToggledCategories(filters.category, category, checked))
    ensures checked ==> category in next.category
    ensures checked && category in filters.category ==> next == filters
    ensures checked && category !in filters.category ==> next.category == filters.category + [category]
    ensures !checked ==> category !in next.category && IsSubsequence(next.category, filters.category)
    ensures !checked ==> forall c :: c in filters.category && c != category ==> c in next.category
  {
    var newCategories := filters.category;
    if checked {
      if category !in newCategories {
        newCategories := newCategories + [category];
      }
    } else {
      newCategories := Filter(newCategories, Other(category));
      FilterIsSubsequence(filters.category, Other(category));
      forall c | c in filters.category && c != category ensures c in newCategories {
        FilterMember(filters.category, Other(category), c);
      }
    }
    next := filters.(category := newCategories);
  }

  /** A category list without duplicates keeps that property through any check or uncheck. */
  lemma ToggleKeepsDistinct(categories: seq<string>, category: string, checked: bool)
    requires Distinct(categories)
    ensures Distinct(ToggledCategories(categories, category, checked))
  {
    if !checked {
      FilterDistinct(categories, Other(category));
    }
  }

  /** Checking twice is checking once. */
  lemma CheckIdempotent(categories: seq<string>, category: string)
    ensures ToggledCategories(ToggledCategories(categories, category, true), category, true)
         == ToggledCategories(categories, category, true)
  {
  }

  /** Checking and then unchecking a category that was absent restores the list. */
  lemma CheckThenUncheck(categories: seq<string>, category: string)
    requires category !in categories
    ensures ToggledCategories(ToggledCategories(categories, category, true), category, false) == categories
  {
    FilterAppend(categories, [category], Other(category));
    FilterKeepsAll(categories, Other(category));
    assert Filter([category], Other(category)) == [];
  }

  /** The student-discount checkbox: only `studentDiscount` changes. */
  function SetStudentDiscount(filters: FilterOptions, checked: bool): (r: FilterOptions)
    ensures r.studentDiscount == checked
    ensures r.(studentDiscount := filters.studentDiscount) == filters
  {
    filters.(studentDiscount := checked)
  }

  /** `clearFilters`: every filter off and no institution field. */
  function ClearFilters(): (r: FilterOptions)
    ensures r.category == [] && r.priceRange == []
    ensures r.rating == 0.0 && !r.studentDiscount && !r.openNow
    ensures r.searchQuery == "" && r.institution.None?
  {
    FilterOptions(
      category := [],
      priceRange := [],
      rating := 0.0,
      studentDiscount := false,
      openNow := false,
      searchQuery := "",
      institution := None)
  }
}
