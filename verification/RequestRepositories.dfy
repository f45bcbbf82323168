/** `TypeOrmRequestRepository`: the requests table behind its methods, and the query builder that
    `findPaginated` adds its conditions to. */
module RequestRepositories {
  import opened Wrappers
  import opened Calendar
  import opened Uuids
  import opened Requests
  import opened RequestEntities
  import opened Cursors
  import opened RowOrder
  import opened Listings
  import Pagination
  import RequestStore
  import SerialRuns

  // ---------------------------------------------------------------- the query builder

  datatype Condition =
    | TenantIs(tenantId: Uuid)
    | Past(direction: Direction, position: SeekKey)
    | StatusIs(status: Status)
    | ChannelIs(channel: Channel)
    | CategoryIs(category: string)

  predicate Holds(c: Condition, row: RequestRow) {
    match c
    case TenantIs(t) => row.tenantId == t
    case Past(direction, position) => Ahead(direction, position, KeyOf(row))
    case StatusIs(s) => row.status == s
    case ChannelIs(c) => row.channel == c
    case CategoryIs(c) => row.category == Some(c)
  }

  predicate AllHold(conditions: seq<Condition>, row: RequestRow) {
    forall c <- conditions :: Holds(c, row)
  }

  lemma AllHoldAdd(conditions: seq<Condition>, c: Condition, row: RequestRow)
    ensures AllHold(conditions + [c], row) <==> AllHold(conditions, row) && Holds(c, row)
  {
    assert forall d :: d in conditions + [c] <==> d in conditions || d == c;
  }

  /** The live rows that meet the conditions; deleted rows are never selected. */
  function Selected(rows: Table, conditions: seq<Condition>): (s: set<RequestRow>)
    ensures DistinctIds(s)
  {
    set id <- rows | rows[id].Live() && AllHold(conditions, rows[id]) :: rows[id]
  }

  class QueryBuilder {
    var conditions: seq<Condition>
    const sort: Sort
    const take: nat

    constructor (tenantId: Uuid, sort: Sort, take: nat)
      ensures conditions == [TenantIs(tenantId)] && this.sort == sort && this.take == take
    {
      conditions := [TenantIs(tenantId)];
      this.sort := sort;
      this.take := take;
    }

    method AndWhere(c: Condition)
      modifies this
      ensures conditions == old(conditions) + [c]
    {
      conditions := conditions + [c];
    }

    /** The first `take` selected rows in order. */
    method GetMany(rows: Table) returns (results: seq<RequestRow>)
      ensures results == Take(Listed(sort, Selected(rows, conditions)), take)
    {
      var all := PutInOrder(sort, Selected(rows, conditions));
      results := Take(all, take);
    }
  }

  // ---------------------------------------------------------------- the repository

  class RequestRepository {
    var rows: Table

    constructor ()
      ensures rows == map[] && Valid()
    {
      rows := map[];
    }

    /** The unique constraint on external message ids. */
    predicate Valid()
      reads this
    {
      SerialRuns.UniqueExternalIds(rows)
    }

    /** Writes the row, unless another row has its external message id. */
    method Save(row: RequestRow, now: Micros) returns (r: Result<RequestRow, RequestStore.ServiceError>)
      requires Valid()
      modifies this
      ensures Valid()
      ensures match RequestStore.Save(old(rows), row, now)
              case Ok(rows') => rows == rows' && row.id in rows && r == Ok(rows[row.id])
              case Err(e) => rows == old(rows) && r == Err(e)
    {
      if RequestStore.Clashes(rows, row) {
        return Err(RequestStore.UniqueViolation);
      }
      rows := rows[row.id := RequestStore.Stamped(rows, row, now)];
      return Ok(rows[row.id]);
    }

    /** Adds a new row, unless its id or its external message id is taken. */
    method Insert(row: RequestRow) returns (r: Result<RequestRow, RequestStore.ServiceError>)
      requires Valid()
      modifies this
      ensures Valid()
      ensures match RequestStore.Insert(old(rows), row)
              case Ok(rows') => rows == rows' && r == Ok(row)
              case Err(e) => rows == old(rows) && r == Err(e)
    {
      if row.id in rows || RequestStore.Clashes(rows, row) {
        return Err(RequestStore.UniqueViolation);
      }
      rows := rows[row.id := row];
      return Ok(row);
    }

    /** A live row of the tenant, as an entity with its methods. */
    method FindById(tenantId: Uuid, id: string) returns (r: Request?)
      ensures match RequestStore.FindById(rows, tenantId, id)
              case Some(row) => r != null && fresh(r) && r.Row() == row
              case None => r == null
    {
      r := null;
      var found := RequestStore.FindById(rows, tenantId, id);
      if found.Some? {
        r := new Request(found.value);
      }
    }

    /** A row of the tenant with the external message id, deleted or not: there is at most one. */
    method FindByExternalMessageId(tenantId: Uuid, externalId: string) returns (r: Option<Uuid>)
      requires Valid()
      ensures r == RequestStore.FindByExternalId(rows, tenantId, externalId)
    {
      if id :| id in rows && RequestStore.HasExternalId(rows, tenantId, externalId, id) {
        return Some(id);
      }
      assert forall id :: !RequestStore.HasExternalId(rows, tenantId, externalId, id);
      return None;
    }

    method SoftRemove(id: Uuid, now: Micros)
      requires Valid()
      modifies this
      ensures Valid()
      ensures rows == RequestStore.SoftRemove(old(rows), id, now)
    {
      if id in rows {
        RemoveKeepsUnique(rows, id, now);
        rows := rows[id := RequestStore.SoftDeleted(rows[id], now)];
      }
    }

    /** One page, with the conditions added one by one, is the page the specification cuts. */
    method FindPaginated(tenantId: Uuid, query: Pagination.Query)
      returns (r: Result<Pagination.Page, Pagination.ListError>)
      ensures r == Pagination.FindPage(rows, tenantId, query)
    {
      hide Pagination.ParseSort, Pagination.SeekFrom, Pagination.ToPage, Selected, Eligible, Cut, Lists;
      var limit := Pagination.LimitOf(query);
      var parsed := Pagination.ParseSort(query.sort);
      if parsed.Err? {
        return Err(parsed.error);
      }
      var sort := parsed.value;
      var qb := new QueryBuilder(tenantId, sort, limit + 1);

      var seek := Pagination.SeekFrom(query.cursor);
      if seek.Err? {
        return Err(seek.error);
      }
      if seek.value.Some? {
        qb.AndWhere(Past(sort.direction, seek.value.value));
      }
      if query.status.Some? {
        qb.AndWhere(StatusIs(query.status.value));
      }
      if query.channel.Some? {
        qb.AndWhere(ChannelIs(query.channel.value));
      }
      if Pagination.Given(query.category).Some? {
        qb.AndWhere(CategoryIs(query.category.value));
      }
      assert qb.conditions == ConditionsFor(tenantId, query, sort, seek.value);
      SelectedIsEligible(rows, tenantId, query, sort, seek.value);

      var results := qb.GetMany(rows);
      r := Ok(Pagination.ToPage(Cut(results, limit)));
    }
  }

  lemma RemoveKeepsUnique(rows: Table, id: Uuid, now: Micros)
    requires SerialRuns.UniqueExternalIds(rows) && id in rows
    ensures SerialRuns.UniqueExternalIds(rows[id := RequestStore.SoftDeleted(rows[id], now)])
  {
  }

  function Also(conditions: seq<Condition>, c: Option<Condition>): seq<Condition> {
    if c.Some? then conditions + [c.value] else conditions
  }

  function ConditionsFor(tenantId: Uuid, q: Pagination.Query, sort: Sort, seek: Option<SeekKey>): seq<Condition> {
    var category := Pagination.Given(q.category);
    Also(Also(Also(Also([TenantIs(tenantId)],
      if seek.Some? then Some(Past(sort.direction, seek.value)) else None),
      if q.status.Some? then Some(StatusIs(q.status.value)) else None),
      if q.channel.Some? then Some(ChannelIs(q.channel.value)) else None),
      if category.Some? then Some(CategoryIs(category.value)) else None)
  }

  lemma AlsoHolds(conditions: seq<Condition>, c: Option<Condition>, row: RequestRow)
    ensures AllHold(Also(conditions, c), row) <==> AllHold(conditions, row) && (c.Some? ==> Holds(c.value, row))
  {
    hide AllHold;
    if c.Some? { AllHoldAdd(conditions, c.value, row); }
  }

  /** The accumulated conditions select exactly the rows the listing is about. */
  lemma SelectedIsEligible(rows: Table, tenantId: Uuid, q: Pagination.Query, sort: Sort, seek: Option<SeekKey>)
    ensures Selected(rows, ConditionsFor(tenantId, q, sort, seek)) == Eligible(rows, Pagination.ListingOf(tenantId, q, sort), seek)
  {
    hide Ahead;
    forall row: RequestRow
      ensures row.Live() && AllHold(ConditionsFor(tenantId, q, sort, seek), row)
         <==> Matches(row, Pagination.ListingOf(tenantId, q, sort)) && Beyond(seek, sort.direction, row)
    {
      ConditionsMean(tenantId, q, sort, seek, row);
    }
  }

  lemma ConditionsMean(tenantId: Uuid, q: Pagination.Query, sort: Sort, seek: Option<SeekKey>, row: RequestRow)
    ensures row.Live() && AllHold(ConditionsFor(tenantId, q, sort, seek), row)
       <==> Matches(row, Pagination.ListingOf(tenantId, q, sort)) && Beyond(seek, sort.direction, row)
  {
    hide Ahead, AllHold, Also;
    var category := Pagination.Given(q.category);
    var c0 := [TenantIs(tenantId)];
    var c1 := Also(c0, if seek.Some? then Some(Past(sort.direction, seek.value)) else None);
    var c2 := Also(c1, if q.status.Some? then Some(StatusIs(q.status.value)) else None);
    var c3 := Also(c2, if q.channel.Some? then Some(ChannelIs(q.channel.value)) else None);
    AllHoldOne(TenantIs(tenantId), row);
    AlsoHolds(c0, if seek.Some? then Some(Past(sort.direction, seek.value)) else None, row);
    AlsoHolds(c1, if q.status.Some? then Some(StatusIs(q.status.value)) else None, row);
    AlsoHolds(c2, if q.channel.Some? then Some(ChannelIs(q.channel.value)) else None, row);
    AlsoHolds(c3, if category.Some? then Some(CategoryIs(category.value)) else None, row);
  }

  lemma AllHoldOne(c: Condition, row: RequestRow)
    ensures AllHold([c], row) <==> Holds(c, row)
  {
    assert c in [c];
  }
}
