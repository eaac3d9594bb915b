/**
 * The business endpoints of the backend (backend/routers/businesses.py):
 * listing with a category and a text filter and OFFSET/LIMIT paging, reading one
 * business, creating one for the current user, and the owner-only partial update.
 * The current user is given by id; authentication is not part of this model.
 */
module BusinessesRouter {
  import opened Wrappers
  import opened Seqs
  import opened Text
  import opened Database
  import opened SqlLike

  /** Python truthiness of an optional string parameter. */
  predicate Given(s: Option<string>)
  {
    s.Some? && s.value != ""
  }

  function InCategory(category: string): Entry<BusinessRow> -> bool
  {
    (e: Entry<BusinessRow>) => e.row.category == category
  }

  /**
   * `Business.name.contains(search) | Business.description.contains(search)`: a LIKE
   * with `search` between two `%`, under the engine's case rule.
   */
  function MatchesText(search: string, dialect: Dialect): Entry<BusinessRow> -> bool
  {
    (e: Entry<BusinessRow>) =>
      ContainsLike(e.row.name, search, LikeIgnoresCase(dialect), LikeEscapes(dialect))
      || ContainsLike(e.row.description, search, LikeIgnoresCase(dialect), LikeEscapes(dialect))
  }

  /**
   * For a search without `%` or `_` (and, on PostgreSQL, without `\`), the text filter
   * is a substring test on name or description.
   */
  lemma LiteralSearch(e: Entry<BusinessRow>, search: string, dialect: Dialect)
    requires IsLiteral(search, LikeEscapes(dialect))
    ensures dialect == PostgreSQL ==>
      (MatchesText(search, dialect)(e) <==> Contains(e.row.name, search) || Contains(e.row.description, search))
    ensures dialect == SQLite ==>
      (MatchesText(search, dialect)(e) <==>
         Contains(Lower(e.row.name), Lower(search)) || Contains(Lower(e.row.description), Lower(search)))
  {
    ContainsLikeExact(e.row.name, search, LikeEscapes(dialect));
    ContainsLikeExact(e.row.description, search, LikeEscapes(dialect));
    ContainsLikeFolded(e.row.name, search, LikeEscapes(dialect));
    ContainsLikeFolded(e.row.description, search, LikeEscapes(dialect));
  }

  /** The conditions of the first `steps` filters of the query (there are two). */
  function QuerySteps(category: Option<string>, search: Option<string>, dialect: Dialect, steps: nat)
    : Entry<BusinessRow> -> bool
  {
    (e: Entry<BusinessRow>) =>
      && (steps > 0 && Given(category) ==> e.row.category == category.value)
      && (steps > 1 && Given(search) ==> MatchesText(search.value, dialect)(e))
  }

  function MatchesQuery(category: Option<string>, search: Option<string>, dialect: Dialect): Entry<BusinessRow> -> bool
  {
    QuerySteps(category, search, dialect, 2)
  }

  /**
   * `get_businesses`: narrow the query by each given parameter, then skip and limit.
   * `skip` and `limit` are whatever integers the query string carries; `dialect` is the
   * engine that runs the statement.
   */
  method GetBusinesses(db: Db, skip: int, limit: int, category: Option<string>, search: Option<string>,
                       dialect: Dialect)
    returns (result: Reply<seq<Entry<BusinessRow>>>)
    requires db.Valid()
    ensures result == Paged(Filter(db.Businesses(), MatchesQuery(category, search, dialect)), skip, limit, dialect)
  {
    var all := db.Businesses();
    var query := all;
    FilterKeepsAll(all, QuerySteps(category, search, dialect, 0));
    if Given(category) {
      query := Filter(query, InCategory(category.value));
      FilterFilter(all, QuerySteps(category, search, dialect, 0), InCategory(category.value),
                   QuerySteps(category, search, dialect, 1));
    } else {
      FilterAgree(all, QuerySteps(category, search, dialect, 0), QuerySteps(category, search, dialect, 1));
    }
    if Given(search) {
      query := Filter(query, MatchesText(search.value, dialect));
      FilterFilter(all, QuerySteps(category, search, dialect, 1), MatchesText(search.value, dialect),
                   QuerySteps(category, search, dialect, 2));
    } else {
      FilterAgree(all, QuerySteps(category, search, dialect, 1), QuerySteps(category, search, dialect, 2));
    }
    result := Paged(query, skip, limit, dialect);
  }

  /**
   * A listed business is a stored one in scan order that meets every given condition;
   * at most `limit` are listed when it is not negative, and a negative bound fails the
   * request on PostgreSQL and lifts the cap on SQLite.
   */
  lemma ListedBusinesses(db: Db, skip: int, limit: int, category: Option<string>, search: Option<string>,
                         dialect: Dialect)
    requires db.Valid()
    ensures var r := Paged(Filter(db.Businesses(), MatchesQuery(category, search, dialect)), skip, limit, dialect);
      && (r.Error? <==> dialect == PostgreSQL && (skip < 0 || limit < 0))
      && (r.Ok? && limit >= 0 ==> |r.value| <= limit)
      && (r.Ok? && skip <= 0 && limit < 0 ==> r.value == Filter(db.Businesses(), MatchesQuery(category, search, dialect)))
      && (r.Ok? ==> forall i :: 0 <= i < |r.value| ==> r.value[i] in Filter(db.Businesses(), MatchesQuery(category, search, dialect)))
    ensures forall e :: e in Filter(db.Businesses(), MatchesQuery(category, search, dialect)) <==>
      && e.id in db.businesses && e.row == db.businesses[e.id]
      && (Given(category) ==> e.row.category == category.value)
      && (Given(search) ==> MatchesText(search.value, dialect)(e))
  {
    var all := db.Businesses();
    var listed := Filter(all, MatchesQuery(category, search, dialect));
    if skip <= 0 && limit < 0 && dialect == SQLite {
      PagedEverything(listed, skip, limit);
    }
    forall e ensures e in listed <==>
      && e.id in db.businesses && e.row == db.businesses[e.id]
      && (Given(category) ==> e.row.category == category.value)
      && (Given(search) ==> MatchesText(search.value, dialect)(e))
    {
      FilterMember(all, MatchesQuery(category, search, dialect), e);
      if e.id in db.businesses && e.row == db.businesses[e.id] {
        var i :| 0 <= i < |db.businessOrder| && db.businessOrder[i] == e.id;
        assert all[i] == e;
      }
    }
  }

  const BusinessNotFound := "Business not found"

  /** `get_business`: the row, or 404. */
  function GetBusiness(db: Db, businessId: int): (reply: Reply<BusinessRow>)
    reads db
    ensures reply.Error? <==> businessId !in db.businesses
    ensures reply.Error? ==> reply == Error(404, BusinessNotFound)
    ensures reply.Ok? ==> reply.value == db.businesses[businessId]
  {
    if businessId !in db.businesses then Error(404, BusinessNotFound) else Ok(db.businesses[businessId])
  }

  /** The row `create_business` adds: the given columns, the current user as owner, unverified and not featured. */
  function NewBusiness(name: string, description: string, category: string, address: string,
                       latitude: real, longitude: real, phone: Option<string>, email: Option<string>,
                       website: Option<string>, priceRange: Option<string>, operatingHours: Option<string>,
                       currentUserId: int): BusinessRow
  {
    BusinessRow(name, description, category, address, latitude, longitude, phone, email, website,
                priceRange, operatingHours, false, false, currentUserId)
  }

  /** `create_business`: add the row and return its new id. */
  method CreateBusiness(db: Db, name: string, description: string, category: string, address: string,
                        latitude: real, longitude: real, phone: Option<string>, email: Option<string>,
                        website: Option<string>, priceRange: Option<string>, operatingHours: Option<string>,
                        currentUserId: int)
    returns (id: int)
    requires db.Valid()
    modifies db
    ensures db.Valid()
    ensures id !in old(db.businesses)
    ensures db.businesses == old(db.businesses)[id := NewBusiness(name, description, category, address, latitude,
              longitude, phone, email, website, priceRange, operatingHours, currentUserId)]
    ensures db.businessOrder == old(db.businessOrder) + [id]
    ensures db.events == old(db.events) && db.eventOrder == old(db.eventOrder) && db.nextEventId == old(db.nextEventId)
  {
    var business := NewBusiness(name, description, category, address, latitude, longitude, phone, email, website,
                                priceRange, operatingHours, currentUserId);
    id := db.AddBusiness(business);
  }

  /** The optional parameters of `update_business`; `None` is Python's `None`. */
  datatype BusinessUpdate = BusinessUpdate(
    name: Option<string>,
    description: Option<string>,
    category: Option<string>,
    address: Option<string>,
    latitude: Option<real>,
    longitude: Option<real>,
    phone: Option<string>,
    email: Option<string>,
    website: Option<string>,
    priceRange: Option<string>,
    operatingHours: Option<string>)

  /** One entry of `update_data`: a column and its new value. */
  datatype BusinessField =
    | NameField(name: string)
    | DescriptionField(description: string)
    | CategoryField(category: string)
    | AddressField(address: string)
    | LatitudeField(latitude: real)
    | LongitudeField(longitude: real)
    | PhoneField(phone: string)
    | EmailField(email: string)
    | WebsiteField(website: string)
    | PriceRangeField(priceRange: string)
    | OperatingHoursField(operatingHours: string)

  /** A list of parameters, each with whether it is not `None` and the entry it makes. */
  datatype Parameters = NoParameters | Parameter(given: bool, entry: BusinessField, rest: Parameters)

  /** The parameters of `update_business`, in declaration order. */
  function ParametersOf(u: BusinessUpdate): Parameters
  {
    Parameter(u.name.Some?, NameField(u.name.GetOr("")),
    Parameter(u.description.Some?, DescriptionField(u.description.GetOr("")),
    Parameter(u.category.Some?, CategoryField(u.category.GetOr("")),
    Parameter(u.address.Some?, AddressField(u.address.GetOr("")),
    Parameter(u.latitude.Some?, LatitudeField(u.latitude.GetOr(0.0)),
    Parameter(u.longitude.Some?, LongitudeField(u.longitude.GetOr(0.0)),
    ContactParameters(u)))))))
  }

  /** The trailing parameters, phone to operating hours. */
  function ContactParameters(u: BusinessUpdate): Parameters
  {
    Parameter(u.phone.Some?, PhoneField(u.phone.GetOr("")),
    Parameter(u.email.Some?, EmailField(u.email.GetOr("")),
    Parameter(u.website.Some?, WebsiteField(u.website.GetOr("")),
    Parameter(u.priceRange.Some?, PriceRangeField(u.priceRange.GetOr("")),
    Parameter(u.operatingHours.Some?, OperatingHoursField(u.operatingHours.GetOr("")),
    NoParameters)))))
  }

  /** The entries of the given parameters, in order. */
  function GivenEntries(ps: Parameters): seq<BusinessField>
    decreases ps
  {
    if ps.NoParameters? then [] else (if ps.given then [ps.entry] else []) + GivenEntries(ps.rest)
  }

  /** `update_data`: one entry per parameter that is not `None`, in parameter order. */
  function UpdateData(u: BusinessUpdate): seq<BusinessField>
  {
    GivenEntries(ParametersOf(u))
  }

  /** `setattr(business, field, value)`. */
  function SetAttr(row: BusinessRow, f: BusinessField): BusinessRow
  {
    match f
    case NameField(v) => row.(name := v)
    case DescriptionField(v) => row.(description := v)
    case CategoryField(v) => row.(category := v)
    case AddressField(v) => row.(address := v)
    case LatitudeField(v) => row.(latitude := v)
    case LongitudeField(v) => row.(longitude := v)
    case PhoneField(v) => row.(phone := Some(v))
    case EmailField(v) => row.(email := Some(v))
    case WebsiteField(v) => row.(website := Some(v))
    case PriceRangeField(v) => row.(priceRange := Some(v))
    case OperatingHoursField(v) => row.(operatingHours := Some(v))
  }

  /** The row after the entries of `data`, applied in order. */
  function ApplyAll(row: BusinessRow, data: seq<BusinessField>): BusinessRow
    decreases |data|
  {
    if data == [] then row else ApplyAll(SetAttr(row, data[0]), data[1..])
  }

  /** The intended result of an update: each given column replaced, every other column kept. */
  function Patched(row: BusinessRow, u: BusinessUpdate): BusinessRow
  {
    BusinessRow(
      name := u.name.GetOr(row.name),
      description := u.description.GetOr(row.description),
      category := u.category.GetOr(row.category),
      address := u.address.GetOr(row.address),
      latitude := u.latitude.GetOr(row.latitude),
      longitude := u.longitude.GetOr(row.longitude),
      phone := if u.phone.Some? then u.phone else row.phone,
      email := if u.email.Some? then u.email else row.email,
      website := if u.website.Some? then u.website else row.website,
      priceRange := if u.priceRange.Some? then u.priceRange else row.priceRange,
      operatingHours := if u.operatingHours.Some? then u.operatingHours else row.operatingHours,
      isVerified := row.isVerified,
      isFeatured := row.isFeatured,
      ownerId := row.ownerId)
  }

  /** `SetAttr` when `present`, the row unchanged otherwise, decided column by column. */
  function SetAttrIf(row: BusinessRow, present: bool, f: BusinessField): BusinessRow
  {
    match f
    case NameField(v) => row.(name := if present then v else row.name)
    case DescriptionField(v) => row.(description := if present then v else row.description)
    case CategoryField(v) => row.(category := if present then v else row.category)
    case AddressField(v) => row.(address := if present then v else row.address)
    case LatitudeField(v) => row.(latitude := if present then v else row.latitude)
    case LongitudeField(v) => row.(longitude := if present then v else row.longitude)
    case PhoneField(v) => row.(phone := if present then Some(v) else row.phone)
    case EmailField(v) => row.(email := if present then Some(v) else row.email)
    case WebsiteField(v) => row.(website := if present then Some(v) else row.website)
    case PriceRangeField(v) => row.(priceRange := if present then Some(v) else row.priceRange)
    case OperatingHoursField(v) => row.(operatingHours := if present then Some(v) else row.operatingHours)
  }

  /** Each parameter in turn: set when given, skipped otherwise. */
  function SetEach(row: BusinessRow, ps: Parameters): BusinessRow
    decreases ps
  {
    if ps.NoParameters? then row else SetEach(SetAttrIf(row, ps.given, ps.entry), ps.rest)
  }

  /** `SetAttrIf` is `SetAttr` or nothing. */
  lemma SetAttrIfCases(row: BusinessRow, present: bool, f: BusinessField)
    ensures SetAttrIf(row, present, f) == if present then SetAttr(row, f) else row
  {
  }

  /** Applying the given entries is visiting every parameter and setting the given ones. */
  lemma {:induction false} ApplyGivenEntries(row: BusinessRow, ps: Parameters)
    ensures ApplyAll(row, GivenEntries(ps)) == SetEach(row, ps)
    decreases ps
  {
    if ps.Parameter? {
      var rest := GivenEntries(ps.rest);
      SetAttrIfCases(row, ps.given, ps.entry);
      if ps.given {
        assert ([ps.entry] + rest)[1..] == rest;
      } else {
        assert [] + rest == rest;
      }
      ApplyGivenEntries(SetAttrIf(row, ps.given, ps.entry), ps.rest);
    }
  }

  lemma SetEachStep(row: BusinessRow, ps: Parameters)
    requires ps.Parameter?
    ensures SetEach(row, ps) == SetEach(SetAttrIf(row, ps.given, ps.entry), ps.rest)
  {
  }

  /** The update restricted to the leading six parameters. */
  function WithoutContact(u: BusinessUpdate): BusinessUpdate
  {
    u.(phone := None, email := None, website := None, priceRange := None, operatingHours := None)
  }

  /** The update restricted to the five contact parameters. */
  function ContactOnly(u: BusinessUpdate): BusinessUpdate
  {
    u.(name := None, description := None, category := None, address := None, latitude := None, longitude := None)
  }

  /** Visiting the leading six parameters patches those columns. */
  lemma SetEachLeading(row: BusinessRow, u: BusinessUpdate)
    ensures SetEach(row, ParametersOf(u)) == SetEach(Patched(row, WithoutContact(u)), ContactParameters(u))
  {
    var ps0 := ParametersOf(u);
    var r0 := row;
    SetEachStep(r0, ps0);
    var ps1 := ps0.rest;
    var r1 := SetAttrIf(r0, u.name.Some?, NameField(u.name.GetOr("")));
    SetEachStep(r1, ps1);
    var ps2 := ps1.rest;
    var r2 := SetAttrIf(r1, u.description.Some?, DescriptionField(u.description.GetOr("")));
    SetEachStep(r2, ps2);
    var ps3 := ps2.rest;
    var r3 := SetAttrIf(r2, u.category.Some?, CategoryField(u.category.GetOr("")));
    SetEachStep(r3, ps3);
    var ps4 := ps3.rest;
    var r4 := SetAttrIf(r3, u.address.Some?, AddressField(u.address.GetOr("")));
    SetEachStep(r4, ps4);
    var ps5 := ps4.rest;
    var r5 := SetAttrIf(r4, u.latitude.Some?, LatitudeField(u.latitude.GetOr(0.0)));
    SetEachStep(r5, ps5);
    var ps6 := ps5.rest;
    var r6 := SetAttrIf(r5, u.longitude.Some?, LongitudeField(u.longitude.GetOr(0.0)));
    assert r6 == Patched(row, WithoutContact(u));
  }

  /** Visiting the contact parameters patches those columns. */
  lemma SetEachContact(row: BusinessRow, u: BusinessUpdate)
    ensures SetEach(row, ContactParameters(u)) == Patched(row, ContactOnly(u))
  {
    var ps0 := ContactParameters(u);
    var r0 := row;
    SetEachStep(r0, ps0);
    var ps1 := ps0.rest;
    var r1 := SetAttrIf(r0, u.phone.Some?, PhoneField(u.phone.GetOr("")));
    SetEachStep(r1, ps1);
    var ps2 := ps1.rest;
    var r2 := SetAttrIf(r1, u.email.Some?, EmailField(u.email.GetOr("")));
    SetEachStep(r2, ps2);
    var ps3 := ps2.rest;
    var r3 := SetAttrIf(r2, u.website.Some?, WebsiteField(u.website.GetOr("")));
    SetEachStep(r3, ps3);
    var ps4 := ps3.rest;
    var r4 := SetAttrIf(r3, u.priceRange.Some?, PriceRangeField(u.priceRange.GetOr("")));
    SetEachStep(r4, ps4);
    var ps5 := ps4.rest;
    var r5 := SetAttrIf(r4, u.operatingHours.Some?, OperatingHoursField(u.operatingHours.GetOr("")));
    assert r5 == Patched(row, ContactOnly(u));
  }

  /** Visiting every parameter in order gives the patched row. */
  lemma SetEachIsPatched(row: BusinessRow, u: BusinessUpdate)
    ensures SetEach(row, ParametersOf(u)) == Patched(row, u)
  {
    SetEachLeading(row, u);
    SetEachContact(Patched(row, WithoutContact(u)), u);
  }

  /** Applying `update_data` with the `setattr` loop gives exactly the patched row. */
  lemma UpdateDataPatches(row: BusinessRow, u: BusinessUpdate)
    ensures ApplyAll(row, UpdateData(u)) == Patched(row, u)
  {
    ApplyGivenEntries(row, ParametersOf(u));
    SetEachIsPatched(row, u);
  }

  /** The `setattr` loop over `update_data`. */
  method SetAttrs(row: BusinessRow, data: seq<BusinessField>) returns (updated: BusinessRow)
    ensures updated == ApplyAll(row, data)
  {
    updated := row;
    for i := 0 to |data|
      invariant ApplyAll(updated, data[i..]) == ApplyAll(row, data)
    {
      assert data[i..][1..] == data[i + 1..];
      updated := SetAttr(updated, data[i]);
    }
  }

  /**
   * A patch changes exactly the given columns: the owner and the flags are kept, an
   * empty update changes nothing, and patching twice with the same update is patching once.
   */
  lemma PatchedFacts(row: BusinessRow, u: BusinessUpdate)
    ensures Patched(row, u).ownerId == row.ownerId
    ensures Patched(row, u).isVerified == row.isVerified && Patched(row, u).isFeatured == row.isFeatured
    ensures u.name.Some? ==> Patched(row, u).name == u.name.value
    ensures u.name.None? ==> Patched(row, u).name == row.name
    ensures u.phone.Some? ==> Patched(row, u).phone == u.phone
    ensures u.phone.None? ==> Patched(row, u).phone == row.phone
    ensures Patched(row, BusinessUpdate(None, None, None, None, None, None, None, None, None, None, None)) == row
    ensures Patched(Patched(row, u), u) == Patched(row, u)
  {
  }

  const NotAuthorizedToUpdate := "Not authorized to update this business"
  const BusinessUpdated := "Business updated successfully"

  /**
   * `update_business`: 404 for an unknown id, then 403 unless the current user owns
   * the business; otherwise the given columns are replaced and nothing else changes.
   */
  method UpdateBusiness(db: Db, businessId: int, u: BusinessUpdate, currentUserId: int) returns (reply: Reply<string>)
    requires db.Valid()
    modifies db
    ensures db.Valid()
    ensures businessId !in old(db.businesses) ==>
              reply == Error(404, BusinessNotFound) && db.businesses == old(db.businesses)
    ensures businessId in old(db.businesses) && old(db.businesses)[businessId].ownerId != currentUserId ==>
              reply == Error(403, NotAuthorizedToUpdate) && db.businesses == old(db.businesses)
    ensures businessId in old(db.businesses) && old(db.businesses)[businessId].ownerId == currentUserId ==>
              && reply == Ok(BusinessUpdated)
              && db.businesses == old(db.businesses)[businessId := Patched(old(db.businesses)[businessId], u)]
    ensures db.events == old(db.events) && db.businessOrder == old(db.businessOrder) && db.eventOrder == old(db.eventOrder)
    ensures db.nextBusinessId == old(db.nextBusinessId) && db.nextEventId == old(db.nextEventId)
  {
    var found := GetBusiness(db, businessId);
    if found.Error? {
      return Error(found.status, found.detail);
    }
    var business := found.value;
    if business.ownerId != currentUserId {
      return Error(403, NotAuthorizedToUpdate);
    }
    var updateData := UpdateData(u);
    var updated := SetAttrs(business, updateData);
    UpdateDataPatches(business, u);
    db.PutBusiness(businessId, updated);
    reply := Ok(BusinessUpdated);
  }
}
