/**
 * The institution selector (src/components/ui/InstitutionSelector.tsx): the
 * colleges and schools tabs, each sorted by name, the dialog's `open` flag, and
 * the select and clear handlers, which report the choice to the parent.
 */
module InstitutionSelector {
  import opened Wrappers
  import opened Seqs
  import opened Text
  import opened Types

  function OfKind(kind: InstitutionType): Institution -> bool { (i: Institution) => i.kind == kind }
  function NotUniversity(): Institution -> bool { (i: Institution) => i.kind != University }

  /** `(a, b) => a.name.localeCompare(b.name)` read as "a may come before b". */
  function ByName(): (Institution, Institution) -> bool { (a: Institution, b: Institution) => LexLe(a.name, b.name) }

  lemma ByNameIsTotalPreorder()
    ensures IsTotalPreorder(ByName())
  {
    forall a: Institution, b: Institution ensures ByName()(a, b) || ByName()(b, a) {
      LexLeTotal(a.name, b.name);
    }
    forall a: Institution, b: Institution, c: Institution | ByName()(a, b) && ByName()(b, c)
      ensures ByName()(a, c)
    {
      LexLeTransitive(a.name, b.name, c.name);
    }
  }

  /** `institutions.filter(i => i.type === 'college').sort(byName)`. */
  function Colleges(institutions: seq<Institution>): seq<Institution>
  {
    SortBy(Filter(institutions, OfKind(College)), ByName())
  }

  /** `institutions.filter(i => i.type === 'school').sort(byName)`. */
  function Schools(institutions: seq<Institution>): seq<Institution>
  {
    SortBy(Filter(institutions, OfKind(School)), ByName())
  }

  /**
   * Each tab lists exactly the institutions of its type, ordered by name, as a
   * permutation of the type-filtered list.
   */
  lemma TabsSortedPermutations(institutions: seq<Institution>)
    ensures SortedBy(Colleges(institutions), ByName())
    ensures multiset(Colleges(institutions)) == multiset(Filter(institutions, OfKind(College)))
    ensures SortedBy(Schools(institutions), ByName())
    ensures multiset(Schools(institutions)) == multiset(Filter(institutions, OfKind(School)))
  {
    ByNameIsTotalPreorder();
    SortByCorrect(Filter(institutions, OfKind(College)), ByName());
    SortByCorrect(Filter(institutions, OfKind(School)), ByName());
  }

  /** An institution is in the colleges tab iff it is a listed college, and likewise for schools. */
  lemma TabMembership(institutions: seq<Institution>, i: Institution)
    ensures i in Colleges(institutions) <==> i in institutions && i.kind == College
    ensures i in Schools(institutions) <==> i in institutions && i.kind == School
  {
    TabsSortedPermutations(institutions);
    FilterMember(institutions, OfKind(College), i);
    FilterMember(institutions, OfKind(School), i);
    assert i in Colleges(institutions) <==> i in multiset(Colleges(institutions));
    assert i in Filter(institutions, OfKind(College)) <==> i in multiset(Filter(institutions, OfKind(College)));
    assert i in Schools(institutions) <==> i in multiset(Schools(institutions));
    assert i in Filter(institutions, OfKind(School)) <==> i in multiset(Filter(institutions, OfKind(School)));
  }

  /** Universities appear in neither tab, and the two tabs together hold every other institution once. */
  lemma TabsCoverNonUniversities(institutions: seq<Institution>)
    ensures forall i :: i in Colleges(institutions) || i in Schools(institutions) ==> i.kind != University
    ensures |Colleges(institutions)| + |Schools(institutions)| == |Filter(institutions, NotUniversity())|
  {
    forall i | i in Colleges(institutions) || i in Schools(institutions) ensures i.kind != University {
      TabMembership(institutions, i);
    }
    TabsSortedPermutations(institutions);
    assert |Colleges(institutions)| == |multiset(Colleges(institutions))|;
    assert |Schools(institutions)| == |multiset(Schools(institutions))|;
    assert |Filter(institutions, OfKind(College))| == |multiset(Filter(institutions, OfKind(College)))|;
    assert |Filter(institutions, OfKind(School))| == |multiset(Filter(institutions, OfKind(School)))|;
    FilterCountSplit(institutions, OfKind(College), OfKind(School), NotUniversity());
  }

  /** An entry is marked "Selected" when its id is the selected institution's id. */
  predicate IsMarked(selected: Option<Institution>, i: Institution)
  {
    selected.Some? && selected.value.id == i.id
  }

  /** In a tab whose ids are distinct, at most one entry is marked, and it is the one with the selected id. */
  lemma AtMostOneMarked(tab: seq<Institution>, selected: Option<Institution>)
    requires forall j, k :: 0 <= j < k < |tab| ==> tab[j].id != tab[k].id
    ensures forall j, k :: 0 <= j < |tab| && 0 <= k < |tab| && IsMarked(selected, tab[j]) && IsMarked(selected, tab[k]) ==> j == k
    ensures selected.None? ==> forall j :: 0 <= j < |tab| ==> !IsMarked(selected, tab[j])
  {
  }

  class Selector {
    /** Whether the dialog is open. */
    var open: bool

    constructor ()
      ensures !open
    {
      open := false;
    }

    /** `handleSelect`: report the chosen institution to `onSelect` and close the dialog. */
    method HandleSelect(institution: Institution) returns (reported: Option<Institution>)
      modifies this
      ensures reported == Some(institution) && !open
    {
      reported := Some(institution);
      open := false;
    }

    /** `handleClear`: report no institution to `onSelect` and close the dialog. */
    method HandleClear() returns (reported: Option<Institution>)
      modifies this
      ensures reported == None && !open
    {
      reported := None;
      open := false;
    }
  }
}
