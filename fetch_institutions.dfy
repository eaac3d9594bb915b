/**
 * The offline snapshot builder (scripts/fetch_institutions.js): the Overpass
 * elements are narrowed to named nodes, each becomes an institution with an
 * inferred type and an address built from its tags, records without a name or
 * coordinates are dropped, and repeated (name, lat, lon) triples are removed.
 * The Overpass response is an input; writing the JSON file is not part of this model.
 */
module FetchInstitutions {
  import opened Wrappers
  import opened Seqs
  import opened Text
  import opened Types

  /** `element.type === 'node' && element.tags && element.tags.name`. */
  predicate IsNamedNode(e: Element)
  {
    e.kind == "node" && e.tags.Some? && Tag(e.tags.value, "name") != ""
  }

  /** The type one tag value names: university before college, anything else is a school. */
  function TypeFromTag(value: string): (kind: InstitutionType)
    ensures kind == University <==> Contains(value, "university")
    ensures kind == College <==> Contains(value, "college") && !Contains(value, "university")
  {
    if Contains(value, "college") || Contains(value, "university") then
      (if Contains(value, "university") then University else College)
    else School
  }

  /** A non-empty amenity tag alone decides the type; otherwise the education tag does. */
  function InferType(tags: Tags): (kind: InstitutionType)
    ensures Tag(tags, "amenity") != "" ==> kind == TypeFromTag(Tag(tags, "amenity"))
    ensures Tag(tags, "amenity") == "" ==> kind == TypeFromTag(Tag(tags, "education"))
  {
    var kind := School;
    if Tag(tags, "amenity") != "" then
      (if Contains(Tag(tags, "amenity"), "college") || Contains(Tag(tags, "amenity"), "university") then
         (if Contains(Tag(tags, "amenity"), "university") then University else College)
       else kind)
    else if Tag(tags, "education") != "" then
      (if Contains(Tag(tags, "education"), "college") || Contains(Tag(tags, "education"), "university") then
         (if Contains(Tag(tags, "education"), "university") then University else College)
       else kind)
    else kind
  }

  /** The non-empty parts among street, city and postcode, in that order. */
  function AddressParts(tags: Tags): (parts: seq<string>)
    ensures forall i :: 0 <= i < |parts| ==> parts[i] != ""
    ensures parts == [] <==> Tag(tags, "addr:street") == Tag(tags, "addr:city") == Tag(tags, "addr:postcode") == ""
  {
    (if Tag(tags, "addr:street") != "" then [Tag(tags, "addr:street")] else [])
    + (if Tag(tags, "addr:city") != "" then [Tag(tags, "addr:city")] else [])
    + (if Tag(tags, "addr:postcode") != "" then [Tag(tags, "addr:postcode")] else [])
  }

  /** Joining non-empty parts gives the empty string only for no parts. */
  lemma JoinOfNonEmptyParts(parts: seq<string>, sep: string)
    requires forall i :: 0 <= i < |parts| ==> parts[i] != ""
    ensures Join(parts, sep) == "" <==> parts == []
    ensures parts != [] ==> |Join(parts, sep)| >= |parts[0]| && Join(parts, sep)[..|parts[0]|] == parts[0]
  {
    if |parts| > 1 {
      assert Join(parts, sep) == parts[0] + (sep + Join(parts[1..], sep));
    }
  }

  /**
   * `addressParts.join(', ') || tags.display_name || ''`, then `address || undefined`:
   * `None` exactly when street, city, postcode and display name are all missing.
   */
  function Address(tags: Tags): (address: Option<string>)
    ensures address.None? <==>
      Tag(tags, "addr:street") == Tag(tags, "addr:city") == Tag(tags, "addr:postcode") == Tag(tags, "display_name") == ""
    ensures address.Some? ==> address.value != ""
    ensures Tag(tags, "addr:street") != "" ==>
      (address.Some? && |address.value| >= |Tag(tags, "addr:street")|
       && address.value[..|Tag(tags, "addr:street")|] == Tag(tags, "addr:street"))
    ensures AddressParts(tags) == [] ==> address == if Tag(tags, "display_name") != "" then Some(Tag(tags, "display_name")) else None
  {
    JoinOfNonEmptyParts(AddressParts(tags), ", ");
    var joined := Join(AddressParts(tags), ", ");
    var address := if joined != "" then joined else Tag(tags, "display_name");
    if address != "" then Some(address) else None
  }

  /** The record built for one named node. */
  function ToRecord(e: Element): (inst: Institution)
    requires IsNamedNode(e)
    ensures inst.id == "inst_" + NatToString(e.id)
    ensures inst.name == Tag(e.tags.value, "name") && inst.name != ""
    ensures inst.lat == e.lat && inst.lon == e.lon
    ensures inst.kind == InferType(e.tags.value) && inst.address == Address(e.tags.value)
  {
    var tags := e.tags.value;
    Institution(
      id := "inst_" + NatToString(e.id),
      name := Tag(tags, "name"),
      kind := InferType(tags),
      lat := e.lat,
      lon := e.lon,
      address := Address(tags))
  }

  function ToRecords(elements: seq<Element>): (records: seq<Institution>)
    requires forall i :: 0 <= i < |elements| ==> IsNamedNode(elements[i])
    ensures |records| == |elements|
    ensures forall i :: 0 <= i < |elements| ==> records[i] == ToRecord(elements[i])
  {
    seq(|elements|, i requires 0 <= i < |elements| && IsNamedNode(elements[i]) => ToRecord(elements[i]))
  }

  /** `inst.name && inst.lat && inst.lon`: a coordinate of 0 is falsy. */
  predicate HasRequiredFields(inst: Institution)
  {
    inst.name != "" && inst.lat != 0.0 && inst.lon != 0.0
  }

  function Required(): Institution -> bool { (inst: Institution) => HasRequiredFields(inst) }

  /** Two records with the same name and coordinates. */
  function SameTriple(): (Institution, Institution) -> bool
  {
    (a: Institution, b: Institution) => a.name == b.name && a.lat == b.lat && a.lon == b.lon
  }

  /** The whole chain: named nodes, records, required fields, first occurrence of each triple. */
  function Process(elements: seq<Element>): seq<Institution>
  {
    var named := Filter(elements, IsNamedNode);
    FirstIndexFilter(Filter(ToRecords(named), Required()), SameTriple())
  }

  /**
   * Every saved record comes from a named node of the response, has a name and
   * non-zero coordinates, and no two saved records share a (name, lat, lon) triple.
   */
  lemma ProcessFacts(elements: seq<Element>)
    ensures forall inst :: inst in Process(elements) ==>
              HasRequiredFields(inst) && exists e :: e in elements && IsNamedNode(e) && inst == ToRecord(e)
    ensures NoEarlierSame(Process(elements), SameTriple())
    ensures Process(elements) == KeepFirst(Filter(ToRecords(Filter(elements, IsNamedNode)), Required()), SameTriple())
  {
    var named := Filter(elements, IsNamedNode);
    var records := ToRecords(named);
    var kept := Filter(records, Required());
    FirstIndexFilterIsKeepFirst(kept, |kept|, SameTriple());
    KeepFirstUnique(kept, SameTriple());
    KeepFirstUpToFacts(kept, |kept|, SameTriple());
    forall inst | inst in Process(elements)
      ensures HasRequiredFields(inst) && exists e :: e in elements && IsNamedNode(e) && inst == ToRecord(e)
    {
      var k :| 0 <= k < |kept| && kept[k] == inst;
      assert kept[k] in kept;
      var i :| 0 <= i < |records| && records[i] == inst;
      assert named[i] in named;
    }
  }

  /**
   * Every record that passes the required-field filter has a saved record with the
   * same triple, and deduplicating the saved list again changes nothing.
   */
  lemma ProcessKeepsEveryTriple(elements: seq<Element>)
    ensures forall inst :: inst in Filter(ToRecords(Filter(elements, IsNamedNode)), Required()) ==>
              exists saved :: saved in Process(elements) && SameTriple()(saved, inst)
    ensures FirstIndexFilter(Process(elements), SameTriple()) == Process(elements)
  {
    var kept := Filter(ToRecords(Filter(elements, IsNamedNode)), Required());
    FirstIndexFilterIsKeepFirst(kept, |kept|, SameTriple());
    forall inst | inst in kept ensures exists saved :: saved in Process(elements) && SameTriple()(saved, inst) {
      var k :| 0 <= k < |kept| && kept[k] == inst;
      KeepFirstCovers(kept, k, SameTriple());
    }
    var r := Process(elements);
    FirstIndexFilterIsKeepFirst(r, |r|, SameTriple());
    KeepFirstIdempotent(kept, SameTriple());
  }
}
