/**
 * The event endpoints of the backend (backend/routers/events.py): the upcoming-events
 * listing ordered by start date with OFFSET/LIMIT paging, reading one event, and the
 * create, update and delete operations with their ownership checks. The current user
 * is given by id and the current time `now` is a parameter.
 */
module EventsRouter {
  import opened Wrappers
  import opened Seqs
  import opened Database

  /** `{"id": business.id, "name": business.name}`. */
  datatype BusinessRef = BusinessRef(id: int, name: string)

  /** The dictionary the listing and `get_event` return for one event. */
  datatype EventView = EventView(
    id: int,
    title: string,
    description: string,
    startDate: int,
    endDate: int,
    location: string,
    business: Option<BusinessRef>)

  /** `event.business`: the row the event's `business_id` refers to, if there is one. */
  function EventBusiness(businesses: map<int, BusinessRow>, event: EventRow): (b: Option<int>)
    ensures b.Some? <==> event.businessId.Some? && event.businessId.value in businesses
    ensures b.Some? ==> b.value == event.businessId.value
  {
    if event.businessId.Some? && event.businessId.value in businesses then Some(event.businessId.value) else None
  }

  function View(businesses: map<int, BusinessRow>, e: Entry<EventRow>): (v: EventView)
    ensures v.business.None? <==> EventBusiness(businesses, e.row).None?
    ensures v.id == e.id && v.startDate == e.row.startDate
  {
    var b := EventBusiness(businesses, e.row);
    EventView(e.id, e.row.title, e.row.description, e.row.startDate, e.row.endDate, e.row.location,
              if b.Some? then Some(BusinessRef(b.value, businesses[b.value].name)) else None)
  }

  function ViewWith(businesses: map<int, BusinessRow>): Entry<EventRow> -> EventView
  {
    (e: Entry<EventRow>) => View(businesses, e)
  }

  function StartsFrom(now: int): Entry<EventRow> -> bool
  {
    (e: Entry<EventRow>) => e.row.startDate >= now
  }

  function ByStartDate(): (Entry<EventRow>, Entry<EventRow>) -> bool
  {
    (a: Entry<EventRow>, b: Entry<EventRow>) => a.row.startDate <= b.row.startDate
  }

  /** The rows `get_events` selects, before paging. */
  function Selected(events: seq<Entry<EventRow>>, upcoming: bool, now: int): seq<Entry<EventRow>>
  {
    SortBy(if upcoming then Filter(events, StartsFrom(now)) else events, ByStartDate())
  }

  /**
   * `get_events`: filter, order by start date, skip and limit, then build one view per
   * event. `skip` and `limit` are whatever integers the query string carries; `dialect`
   * is the engine that runs the statement.
   */
  method GetEvents(db: Db, skip: int, limit: int, upcoming: bool, now: int, dialect: Dialect)
    returns (result: Reply<seq<EventView>>)
    requires db.Valid()
    ensures var page := Paged(Selected(db.Events(), upcoming, now), skip, limit, dialect);
      && (result.Error? <==> page.Error?)
      && (result.Error? ==> result == Error(500, InternalServerError))
      && (result.Ok? ==> result.value == Map(page.value, ViewWith(db.businesses)))
  {
    var query := db.Events();
    if upcoming {
      query := Filter(query, StartsFrom(now));
    }
    query := SortBy(query, ByStartDate());
    var page := Paged(query, skip, limit, dialect);
    if page.Error? {
      return Error(page.status, page.detail);
    }
    var views := Views(db.businesses, page.value);
    result := Ok(views);
  }

  /** The loop that builds one view per event of the page, in order. */
  method Views(businesses: map<int, BusinessRow>, events: seq<Entry<EventRow>>) returns (views: seq<EventView>)
    ensures views == Map(events, ViewWith(businesses))
  {
    views := [];
    for i := 0 to |events|
      invariant views == Map(events[..i], ViewWith(businesses))
    {
      views := views + [View(businesses, events[i])];
    }
    assert events[..|events|] == events;
  }

  /**
   * The listing is ordered by start date, has at most `limit` entries when `limit` is
   * not negative, and, with `upcoming`, holds only events starting at or after `now`; the
   * selected rows are exactly the stored events that pass the filter. A negative bound
   * fails the request on PostgreSQL and lifts the cap on SQLite.
   */
  lemma SelectedFacts(db: Db, skip: int, limit: int, upcoming: bool, now: int, dialect: Dialect)
    requires db.Valid()
    ensures var page := Paged(Selected(db.Events(), upcoming, now), skip, limit, dialect);
      && (page.Error? <==> dialect == PostgreSQL && (skip < 0 || limit < 0))
      && (page.Ok? && limit >= 0 ==> |page.value| <= limit)
      && (page.Ok? ==> SortedBy(page.value, ByStartDate()))
      && (page.Ok? && upcoming ==> forall i :: 0 <= i < |page.value| ==> page.value[i].row.startDate >= now)
    ensures multiset(Selected(db.Events(), upcoming, now)) ==
              multiset(if upcoming then Filter(db.Events(), StartsFrom(now)) else db.Events())
  {
    var kept := if upcoming then Filter(db.Events(), StartsFrom(now)) else db.Events();
    var sorted := Selected(db.Events(), upcoming, now);
    SortByCorrect(kept, ByStartDate());
    PagedSorted(sorted, skip, limit, dialect, ByStartDate());
    var page := Paged(sorted, skip, limit, dialect);
    if page.Ok? && upcoming {
      forall i | 0 <= i < |page.value| ensures page.value[i].row.startDate >= now {
        PagedMember(sorted, skip, limit, dialect, page.value[i]);
        SelectedUpcoming(db.Events(), now, page.value[i]);
      }
    }
  }

  /** With `upcoming`, every selected event starts at or after `now`. */
  lemma SelectedUpcoming(events: seq<Entry<EventRow>>, now: int, e: Entry<EventRow>)
    requires e in Selected(events, true, now)
    ensures e.row.startDate >= now
  {
    SortByCorrect(Filter(events, StartsFrom(now)), ByStartDate());
    assert e in multiset(Filter(events, StartsFrom(now)));
    assert e in Filter(events, StartsFrom(now));
    assert StartsFrom(now)(e);
  }

  const EventNotFound := "Event not found"

  /** `get_event`: the view of the event, or 404. */
  function GetEvent(db: Db, eventId: int): (reply: Reply<EventView>)
    reads db
    ensures reply.Error? <==> eventId !in db.events
    ensures reply.Error? ==> reply == Error(404, EventNotFound)
    ensures reply.Ok? ==> reply.value.id == eventId && reply.value.title == db.events[eventId].title
  {
    if eventId !in db.events then Error(404, EventNotFound) else Ok(View(db.businesses, Entry(eventId, db.events[eventId])))
  }

  /** `if business_id:`, where 0 and `None` are both falsy. */
  predicate Given(businessId: Option<int>)
  {
    businessId.Some? && businessId.value != 0
  }

  const BusinessNotFound := "Business not found"
  const NotAuthorizedToCreate := "Not authorized to create events for this business"
  const EventCreated := "Event created successfully"

  /**
   * The check of `create_event`: with a given business id, 404 when the business is
   * missing, then 403 when another user owns it; no check without one.
   */
  function CreateCheck(businesses: map<int, BusinessRow>, businessId: Option<int>, currentUserId: int): (error: Option<(int, string)>)
    ensures !Given(businessId) ==> error.None?
    ensures Given(businessId) && businessId.value !in businesses ==> error == Some((404, BusinessNotFound))
    ensures Given(businessId) && businessId.value in businesses ==>
              (error.Some? <==> businesses[businessId.value].ownerId != currentUserId)
              && (error.Some? ==> error == Some((403, NotAuthorizedToCreate)))
  {
    if !Given(businessId) then None
    else if businessId.value !in businesses then Some((404, BusinessNotFound))
    else if businesses[businessId.value].ownerId != currentUserId then Some((403, NotAuthorizedToCreate))
    else None
  }

  /** `create_event`: after the check, store the event with the business id as given and report its new id. */
  method CreateEvent(db: Db, title: string, description: string, startDate: int, endDate: int, location: string,
                     businessId: Option<int>, currentUserId: int)
    returns (reply: Reply<(string, int)>)
    requires db.Valid()
    modifies db
    ensures db.Valid() && db.businesses == old(db.businesses)
    ensures db.businessOrder == old(db.businessOrder) && db.nextBusinessId == old(db.nextBusinessId)
    ensures var error := CreateCheck(old(db.businesses), businessId, currentUserId);
      && (error.Some? ==>
            && reply == Error(error.value.0, error.value.1)
            && db.events == old(db.events) && db.eventOrder == old(db.eventOrder) && db.nextEventId == old(db.nextEventId))
      && (error.None? ==>
            && reply.Ok? && reply.value.0 == EventCreated && reply.value.1 !in old(db.events)
            && db.events == old(db.events)[reply.value.1 := EventRow(title, description, businessId, startDate, endDate, location)]
            && db.eventOrder == old(db.eventOrder) + [reply.value.1])
  {
    var error := CreateCheck(db.businesses, businessId, currentUserId);
    if error.Some? {
      return Error(error.value.0, error.value.1);
    }
    var event := EventRow(title, description, businessId, startDate, endDate, location);
    var id := db.AddEvent(event);
    reply := Ok((EventCreated, id));
  }

  /** The event may be changed by the current user: it has no business, or the user owns it. */
  predicate MayChange(businesses: map<int, BusinessRow>, event: EventRow, currentUserId: int)
  {
    var b := EventBusiness(businesses, event);
    b.None? || businesses[b.value].ownerId == currentUserId
  }

  /** The optional parameters of `update_event`. */
  datatype EventUpdate = EventUpdate(
    title: Option<string>,
    description: Option<string>,
    startDate: Option<int>,
    endDate: Option<int>,
    location: Option<string>)

  /** One entry of `update_data`. */
  datatype EventField =
    | TitleField(title: string)
    | DescriptionField(description: string)
    | StartDateField(startDate: int)
    | EndDateField(endDate: int)
    | LocationField(location: string)

  /** `setattr(event, field, value)`. */
  function SetAttr(row: EventRow, f: EventField): EventRow
  {
    match f
    case TitleField(v) => row.(title := v)
    case DescriptionField(v) => row.(description := v)
    case StartDateField(v) => row.(startDate := v)
    case EndDateField(v) => row.(endDate := v)
    case LocationField(v) => row.(location := v)
  }

  /** The row after the entries of `data`, applied in order. */
  function ApplyAll(row: EventRow, data: seq<EventField>): EventRow
    decreases |data|
  {
    if data == [] then row else ApplyAll(SetAttr(row, data[0]), data[1..])
  }

  /** A list of parameters, each with whether it is not `None` and the entry it makes. */
  datatype Parameters = NoParameters | Parameter(given: bool, entry: EventField, rest: Parameters)

  /** The parameters of `update_event`, in declaration order. */
  function ParametersOf(u: EventUpdate): Parameters
  {
    Parameter(u.title.Some?, TitleField(u.title.GetOr("")),
    Parameter(u.description.Some?, DescriptionField(u.description.GetOr("")),
    Parameter(u.startDate.Some?, StartDateField(u.startDate.GetOr(0)),
    Parameter(u.endDate.Some?, EndDateField(u.endDate.GetOr(0)),
    Parameter(u.location.Some?, LocationField(u.location.GetOr("")),
    NoParameters)))))
  }

  /** The entries of the given parameters, in order. */
  function GivenEntries(ps: Parameters): seq<EventField>
    decreases ps
  {
    if ps.NoParameters? then [] else (if ps.given then [ps.entry] else []) + GivenEntries(ps.rest)
  }

  /** `update_data`: one entry per parameter that is not `None`, in parameter order. */
  function UpdateData(u: EventUpdate): seq<EventField>
  {
    GivenEntries(ParametersOf(u))
  }

  /** The intended result of an update: each given column replaced, every other column kept. */
  function Patched(row: EventRow, u: EventUpdate): EventRow
  {
    EventRow(
      title := u.title.GetOr(row.title),
      description := u.description.GetOr(row.description),
      businessId := row.businessId,
      startDate := u.startDate.GetOr(row.startDate),
      endDate := u.endDate.GetOr(row.endDate),
      location := u.location.GetOr(row.location))
  }

  /** `SetAttr` when `present`, the row unchanged otherwise, decided column by column. */
  function SetAttrIf(row: EventRow, present: bool, f: EventField): EventRow
  {
    match f
    case TitleField(v) => row.(title := if present then v else row.title)
    case DescriptionField(v) => row.(description := if present then v else row.description)
    case StartDateField(v) => row.(startDate := if present then v else row.startDate)
    case EndDateField(v) => row.(endDate := if present then v else row.endDate)
    case LocationField(v) => row.(location := if present then v else row.location)
  }

  /** Each parameter in turn: set when given, skipped otherwise. */
  function SetEach(row: EventRow, ps: Parameters): EventRow
    decreases ps
  {
    if ps.NoParameters? then row else SetEach(SetAttrIf(row, ps.given, ps.entry), ps.rest)
  }

  /** Applying the given entries is visiting every parameter and setting the given ones. */
  lemma {:induction false} ApplyGivenEntries(row: EventRow, ps: Parameters)
    ensures ApplyAll(row, GivenEntries(ps)) == SetEach(row, ps)
    decreases ps
  {
    if ps.Parameter? {
      var rest := GivenEntries(ps.rest);
      assert SetAttrIf(row, ps.given, ps.entry) == if ps.given then SetAttr(row, ps.entry) else row;
      if ps.given {
        assert ([ps.entry] + rest)[1..] == rest;
      } else {
        assert [] + rest == rest;
      }
      ApplyGivenEntries(SetAttrIf(row, ps.given, ps.entry), ps.rest);
    }
  }

  lemma SetEachStep(row: EventRow, ps: Parameters)
    requires ps.Parameter?
    ensures SetEach(row, ps) == SetEach(SetAttrIf(row, ps.given, ps.entry), ps.rest)
  {
  }

  /** Visiting every parameter in order gives the patched row. */
  lemma SetEachIsPatched(row: EventRow, u: EventUpdate)
    ensures SetEach(row, ParametersOf(u)) == Patched(row, u)
  {
    var ps0 := ParametersOf(u);
    var r0 := row;
    SetEachStep(r0, ps0);
    var ps1 := ps0.rest;
    var r1 := SetAttrIf(r0, u.title.Some?, TitleField(u.title.GetOr("")));
    SetEachStep(r1, ps1);
    var ps2 := ps1.rest;
    var r2 := SetAttrIf(r1, u.description.Some?, DescriptionField(u.description.GetOr("")));
    SetEachStep(r2, ps2);
    var ps3 := ps2.rest;
    var r3 := SetAttrIf(r2, u.startDate.Some?, StartDateField(u.startDate.GetOr(0)));
    SetEachStep(r3, ps3);
    var ps4 := ps3.rest;
    var r4 := SetAttrIf(r3, u.endDate.Some?, EndDateField(u.endDate.GetOr(0)));
    SetEachStep(r4, ps4);
    var ps5 := ps4.rest;
    var r5 := SetAttrIf(r4, u.location.Some?, LocationField(u.location.GetOr("")));
    assert r5 == Patched(row, u);
  }

  /** Applying `update_data` with the `setattr` loop gives exactly the patched row. */
  lemma UpdateDataPatches(row: EventRow, u: EventUpdate)
    ensures ApplyAll(row, UpdateData(u)) == Patched(row, u)
  {
    ApplyGivenEntries(row, ParametersOf(u));
    SetEachIsPatched(row, u);
  }

  /** The `setattr` loop over `update_data`. */
  method SetAttrs(row: EventRow, data: seq<EventField>) returns (updated: EventRow)
    ensures updated == ApplyAll(row, data)
  {
    updated := row;
    for i := 0 to |data|
      invariant ApplyAll(updated, data[i..]) == ApplyAll(row, data)
    {
      assert data[i..][1..] == data[i + 1..];
      updated := SetAttr(updated, data[i]);
    }
  }

  /**
   * A patch changes exactly the given columns: the business id is kept, an empty
   * update changes nothing, and patching twice with the same update is patching once.
   */
  lemma PatchedFacts(row: EventRow, u: EventUpdate)
    ensures Patched(row, u).businessId == row.businessId
    ensures u.title.Some? ==> Patched(row, u).title == u.title.value
    ensures u.title.None? ==> Patched(row, u).title == row.title
    ensures Patched(row, EventUpdate(None, None, None, None, None)) == row
    ensures Patched(Patched(row, u), u) == Patched(row, u)
  {
  }

  const NotAuthorizedToUpdate := "Not authorized to update this event"
  const NotAuthorizedToDelete := "Not authorized to delete this event"
  const EventUpdated := "Event updated successfully"
  const EventDeleted := "Event deleted successfully"

  /**
   * `update_event`: 404 for an unknown id, then 403 when the event's business belongs
   * to another user; otherwise the given columns are replaced and nothing else changes.
   */
  method UpdateEvent(db: Db, eventId: int, u: EventUpdate, currentUserId: int) returns (reply: Reply<string>)
    requires db.Valid()
    modifies db
    ensures db.Valid() && db.businesses == old(db.businesses) && db.eventOrder == old(db.eventOrder)
    ensures db.businessOrder == old(db.businessOrder)
    ensures db.nextBusinessId == old(db.nextBusinessId) && db.nextEventId == old(db.nextEventId)
    ensures eventId !in old(db.events) ==> reply == Error(404, EventNotFound) && db.events == old(db.events)
    ensures eventId in old(db.events) && !MayChange(old(db.businesses), old(db.events)[eventId], currentUserId) ==>
              reply == Error(403, NotAuthorizedToUpdate) && db.events == old(db.events)
    ensures eventId in old(db.events) && MayChange(old(db.businesses), old(db.events)[eventId], currentUserId) ==>
              && reply == Ok(EventUpdated)
              && db.events == old(db.events)[eventId := Patched(old(db.events)[eventId], u)]
  {
    if eventId !in db.events {
      return Error(404, EventNotFound);
    }
    var event := db.events[eventId];
    if !MayChange(db.businesses, event, currentUserId) {
      return Error(403, NotAuthorizedToUpdate);
    }
    var updateData := UpdateData(u);
    var updated := SetAttrs(event, updateData);
    UpdateDataPatches(event, u);
    db.PutEvent(eventId, updated);
    reply := Ok(EventUpdated);
  }

  /**
   * `delete_event`: 404 for an unknown id, then 403 when the event's business belongs
   * to another user; otherwise the event is removed and every other event is kept.
   */
  method DeleteEvent(db: Db, eventId: int, currentUserId: int) returns (reply: Reply<string>)
    requires db.Valid()
    modifies db
    ensures db.Valid() && db.businesses == old(db.businesses) && db.businessOrder == old(db.businessOrder)
    ensures db.nextBusinessId == old(db.nextBusinessId) && db.nextEventId == old(db.nextEventId)
    ensures eventId !in old(db.events) ==>
              reply == Error(404, EventNotFound) && db.events == old(db.events) && db.eventOrder == old(db.eventOrder)
    ensures eventId in old(db.events) && !MayChange(old(db.businesses), old(db.events)[eventId], currentUserId) ==>
              reply == Error(403, NotAuthorizedToDelete) && db.events == old(db.events) && db.eventOrder == old(db.eventOrder)
    ensures eventId in old(db.events) && MayChange(old(db.businesses), old(db.events)[eventId], currentUserId) ==>
              && reply == Ok(EventDeleted)
              && eventId !in db.events
              && (forall id :: id in old(db.events) && id != eventId ==> id in db.events && db.events[id] == old(db.events)[id])
              && db.events == old(db.events) - {eventId}
              && db.eventOrder == Filter(old(db.eventOrder), Other(eventId))
  {
    if eventId !in db.events {
      return Error(404, EventNotFound);
    }
    var event := db.events[eventId];
    if !MayChange(db.businesses, event, currentUserId) {
      return Error(403, NotAuthorizedToDelete);
    }
    db.DeleteEvent(eventId);
    reply := Ok(EventDeleted);
  }

  /** An event without a business may be updated or deleted by any user. */
  lemma NoBusinessMayChange(businesses: map<int, BusinessRow>, event: EventRow, userId: int)
    requires event.businessId.None?
    ensures MayChange(businesses, event, userId)
  {
  }
}
