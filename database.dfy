/**
 * The backend's tables (backend/models.py), as the routers see them through the
 * session: the `businesses` and `events` tables keyed by id, each with the order in
 * which a table scan returns its rows, and the ids the database hands out.
 */
module Database {
  import opened Wrappers
  import opened Seqs

  /** A row of `businesses`; the nullable columns the routers may leave unset are options. */
  datatype BusinessRow = BusinessRow(
    name: string,
    description: string,
    category: string,
    address: string,
    latitude: real,
    longitude: real,
    phone: Option<string>,
    email: Option<string>,
    website: Option<string>,
    priceRange: Option<string>,
    operatingHours: Option<string>,
    isVerified: bool,
    isFeatured: bool,
    ownerId: int)

  /** A row of `events`; dates are instants on one integer clock. */
  datatype EventRow = EventRow(
    title: string,
    description: string,
    businessId: Option<int>,
    startDate: int,
    endDate: int,
    location: string)

  /** A row with its id, as a query returns it. */
  datatype Entry<T> = Entry(id: int, row: T)

  /** An endpoint's answer: its value, or the status and detail of the `HTTPException` it raised. */
  datatype Reply<T> = Ok(value: T) | Error(status: int, detail: string)

  /**
   * The database engine behind the session, which the backend's configuration chooses
   * and these files do not show. The engines differ where the routers pass user input
   * through unchecked: a negative OFFSET or LIMIT (SQLite reads a negative offset as 0
   * and a negative limit as no limit; PostgreSQL rejects the statement, the exception
   * escapes the endpoint and the client gets a plain 500), and the case rule of LIKE
   * (SQLite folds ASCII letters by default; PostgreSQL compares exactly), and LIKE's
   * escape character (PostgreSQL's default is `\`; SQLite has none).
   */
  datatype Dialect = SQLite | PostgreSQL

  /** Whether the engine's LIKE ignores the case of ASCII letters. */
  predicate LikeIgnoresCase(dialect: Dialect) { dialect == SQLite }

  /** Whether `\` is LIKE's escape character when the statement names none. */
  predicate LikeEscapes(dialect: Dialect) { dialect == PostgreSQL }

  const InternalServerError := "Internal Server Error"

  /** The first row a page starts from: `skip`, or 0 when it is negative. */
  function Start(skip: int): nat { if skip < 0 then 0 else skip }

  /** How many rows of `rows` lie at or after `Start(skip)`. */
  function Remaining<T>(rows: seq<T>, skip: int): nat
  {
    if Start(skip) <= |rows| then |rows| - Start(skip) else 0
  }

  /** `.offset(skip).limit(limit)` over `rows`, for any integers the query string carries. */
  function Paged<T>(rows: seq<T>, skip: int, limit: int, dialect: Dialect): (r: Reply<seq<T>>)
    ensures r.Error? <==> dialect == PostgreSQL && (skip < 0 || limit < 0)
    ensures r.Error? ==> r.status == 500 && r.detail == InternalServerError
    ensures r.Ok? && limit >= 0 ==> |r.value| == Min(limit, Remaining(rows, skip))
    ensures r.Ok? && limit < 0 ==> |r.value| == Remaining(rows, skip)
    ensures r.Ok? ==> forall i :: 0 <= i < |r.value| ==>
              Start(skip) + i < |rows| && r.value[i] == rows[Start(skip) + i]
  {
    if dialect == PostgreSQL && (skip < 0 || limit < 0) then Error(500, InternalServerError)
    else Ok(Page(rows, Start(skip), if limit < 0 then |rows| else limit))
  }

  /** With both bounds non-negative, every engine returns the same page. */
  lemma PagedNonNegative<T>(rows: seq<T>, skip: int, limit: int, dialect: Dialect)
    requires skip >= 0 && limit >= 0
    ensures Paged(rows, skip, limit, dialect) == Ok(Page(rows, skip, limit))
  {
  }

  /** On SQLite a non-positive skip and a negative limit return every row. */
  lemma PagedEverything<T>(rows: seq<T>, skip: int, limit: int)
    requires skip <= 0 && limit < 0
    ensures Paged(rows, skip, limit, SQLite) == Ok(rows)
  {
    var r := Paged(rows, skip, limit, SQLite);
    assert |r.value| == |rows|;
  }

  /** Every row of a page is a row of the input. */
  lemma PagedMember<T>(rows: seq<T>, skip: int, limit: int, dialect: Dialect, x: T)
    requires Paged(rows, skip, limit, dialect).Ok? && x in Paged(rows, skip, limit, dialect).value
    ensures x in rows
  {
    var page := Paged(rows, skip, limit, dialect).value;
    var i :| 0 <= i < |page| && page[i] == x;
    assert rows[Start(skip) + i] == x;
  }

  /** A page of rows already in order is in order. */
  lemma PagedSorted<T>(rows: seq<T>, skip: int, limit: int, dialect: Dialect, le: (T, T) -> bool)
    requires SortedBy(rows, le)
    ensures Paged(rows, skip, limit, dialect).Ok? ==> SortedBy(Paged(rows, skip, limit, dialect).value, le)
  {
    PageSorted(rows, Start(skip), if limit < 0 then |rows| else limit, le);
  }

  lemma PageSorted<T>(rows: seq<T>, skip: nat, limit: nat, le: (T, T) -> bool)
    requires SortedBy(rows, le)
    ensures SortedBy(Page(rows, skip, limit), le)
  {
    var page := Page(rows, skip, limit);
    forall i, j | 0 <= i < j < |page| ensures le(page[i], page[j]) {
      assert page[i] == rows[skip + i];
      assert page[j] == rows[skip + j];
    }
  }

  /** The rows of `order`, read from `table`. */
  function Scan<T>(table: map<int, T>, order: seq<int>): (entries: seq<Entry<T>>)
    requires forall i :: 0 <= i < |order| ==> order[i] in table
    ensures |entries| == |order|
    ensures forall i :: 0 <= i < |order| ==> entries[i] == Entry(order[i], table[order[i]])
  {
    seq(|order|, i requires 0 <= i < |order| && order[i] in table => Entry(order[i], table[order[i]]))
  }

  /** The ids in scan order are exactly the keys of the table, each once. */
  ghost predicate OrderMatches<T>(table: map<int, T>, order: seq<int>)
  {
    && (forall id :: id in order <==> id in table)
    && (forall i :: 0 <= i < |order| ==> order[i] in table)
    && Distinct(order)
  }

  function Other(id: int): int -> bool { (k: int) => k != id }

  /** Removing one id from a scan order keeps it matched to the table without that key. */
  lemma RemoveFromOrder<T>(table: map<int, T>, order: seq<int>, id: int)
    requires OrderMatches(table, order)
    ensures OrderMatches(table - {id}, Filter(order, Other(id)))
  {
    FilterDistinct(order, Other(id));
    forall k ensures k in Filter(order, Other(id)) <==> k in table - {id} {
      FilterMember(order, Other(id), k);
    }
  }

  class Db {
    var businesses: map<int, BusinessRow>
    var businessOrder: seq<int>
    var nextBusinessId: int
    var events: map<int, EventRow>
    var eventOrder: seq<int>
    var nextEventId: int

    /** Scan orders match the tables, and every id in use is below the next one handed out. */
    ghost predicate Valid()
      reads this
    {
      && OrderMatches(businesses, businessOrder)
      && OrderMatches(events, eventOrder)
      && (forall id :: id in businesses ==> id < nextBusinessId)
      && (forall id :: id in events ==> id < nextEventId)
    }

    constructor ()
      ensures Valid() && businesses == map[] && events == map[]
    {
      businesses := map[];
      businessOrder := [];
      nextBusinessId := 1;
      events := map[];
      eventOrder := [];
      nextEventId := 1;
    }

    function Businesses(): seq<Entry<BusinessRow>>
      requires Valid()
      reads this
    {
      Scan(businesses, businessOrder)
    }

    function Events(): seq<Entry<EventRow>>
      requires Valid()
      reads this
    {
      Scan(events, eventOrder)
    }

    /** `db.add(business); db.commit(); db.refresh(business)`: a fresh id is assigned. */
    method AddBusiness(row: BusinessRow) returns (id: int)
      requires Valid()
      modifies this
      ensures Valid()
      ensures id !in old(businesses) && businesses == old(businesses)[id := row]
      ensures businessOrder == old(businessOrder) + [id]
      ensures events == old(events) && eventOrder == old(eventOrder) && nextEventId == old(nextEventId)
    {
      id := nextBusinessId;
      DistinctAppend(businessOrder, id);
      businesses := businesses[id := row];
      businessOrder := businessOrder + [id];
      nextBusinessId := nextBusinessId + 1;
    }

    /** `db.add(event); db.commit(); db.refresh(event)`: a fresh id is assigned. */
    method AddEvent(row: EventRow) returns (id: int)
      requires Valid()
      modifies this
      ensures Valid()
      ensures id !in old(events) && events == old(events)[id := row]
      ensures eventOrder == old(eventOrder) + [id]
      ensures businesses == old(businesses) && businessOrder == old(businessOrder) && nextBusinessId == old(nextBusinessId)
    {
      id := nextEventId;
      DistinctAppend(eventOrder, id);
      events := events[id := row];
      eventOrder := eventOrder + [id];
      nextEventId := nextEventId + 1;
    }

    /** `setattr` on a loaded business followed by `db.commit()`. */
    method PutBusiness(id: int, row: BusinessRow)
      requires Valid() && id in businesses
      modifies this`businesses
      ensures Valid() && businesses == old(businesses)[id := row]
    {
      businesses := businesses[id := row];
    }

    /** `setattr` on a loaded event followed by `db.commit()`. */
    method PutEvent(id: int, row: EventRow)
      requires Valid() && id in events
      modifies this`events
      ensures Valid() && events == old(events)[id := row]
    {
      events := events[id := row];
    }

    /** `db.delete(event); db.commit()`. */
    method DeleteEvent(id: int)
      requires Valid() && id in events
      modifies this`events, this`eventOrder
      ensures Valid() && events == old(events) - {id}
      ensures eventOrder == Filter(old(eventOrder), Other(id))
    {
      RemoveFromOrder(events, eventOrder, id);
      events := events - {id};
      eventOrder := Filter(eventOrder, Other(id));
    }
  }
}
