/** One page of the keyset listing, as a function of the table, the validated query and the
    position to seek from. */
module Listings {
  import opened Wrappers
  import opened Calendar
  import opened Uuids
  import opened Requests
  import opened Cursors
  import opened RowOrder

  /** A query without its position: whose rows, which filters, in what order, how many a page. */
  datatype Listing = Listing(
    tenantId: Uuid,
    status: Option<Status>,
    channel: Option<Channel>,
    category: Option<string>,
    sort: Sort,
    limit: nat)

  /** A page, with the position of the next one. */
  datatype Batch = Batch(data: seq<RequestRow>, next: Option<SeekKey>)

  /** What a row must satisfy to be listed at all: live, of the tenant, and passing the filters. */
  predicate Matches(row: RequestRow, l: Listing) {
    && row.Live()
    && row.tenantId == l.tenantId
    && (l.status.Some? ==> row.status == l.status.value)
    && (l.channel.Some? ==> row.channel == l.channel.value)
    && (l.category.Some? ==> row.category == l.category)
  }

  function Matching(table: Table, l: Listing): (rows: set<RequestRow>)
    ensures DistinctIds(rows)
  {
    set id <- table | Matches(table[id], l) :: table[id]
  }

  /** The seek predicate is on (createdAt, id) whatever the sort field is. */
  predicate Beyond(seek: Option<SeekKey>, direction: Direction, row: RequestRow) {
    seek.Some? ==> Ahead(direction, seek.value, KeyOf(row))
  }

  function Eligible(table: Table, l: Listing, seek: Option<SeekKey>): (rows: set<RequestRow>)
    ensures DistinctIds(rows)
  {
    set row <- Matching(table, l) | Beyond(seek, l.sort.direction, row)
  }

  /** All rows still to be listed from a position on, in order. */
  ghost function Remaining(table: Table, l: Listing, seek: Option<SeekKey>): (rows: seq<RequestRow>)
    ensures InOrder(l.sort, rows)
    ensures |rows| == |Eligible(table, l, seek)|
    ensures forall x :: x in rows <==> x in Eligible(table, l, seek)
  {
    Listed(l.sort, Eligible(table, l, seek))
  }

  /** The position of a row as its cursor tells it: the millisecond of its creation, and its id. */
  function CursorOf(row: RequestRow): SeekKey {
    SeekKey(ToMillis(row.createdAt) * 1000, row.id)
  }

  function Take<T>(s: seq<T>, n: nat): (t: seq<T>)
    ensures t <= s && |t| == if |s| < n then |s| else n
  {
    if |s| < n then s else s[..n]
  }

  /** The page cut from the rows the database returned for `take(limit + 1)`. */
  function Cut(results: seq<RequestRow>, limit: nat): Batch {
    var hasNextPage := |results| > limit;
    var data := Take(results, limit);
    Batch(data, if hasNextPage && data != [] then Some(CursorOf(data[|data| - 1])) else None)
  }

  ghost function Fetch(table: Table, l: Listing, seek: Option<SeekKey>): Batch {
    Cut(Take(Remaining(table, l, seek), l.limit + 1), l.limit)
  }

  /** A page is the first `limit` of the remaining rows, with a next position exactly when more
      remain: that of the page's last row, its time cut to the millisecond. */
  lemma FetchMeaning(table: Table, l: Listing, seek: Option<SeekKey>)
    requires l.limit >= 1
    ensures var rows := Remaining(table, l, seek);
            && Fetch(table, l, seek).data == Take(rows, l.limit)
            && Fetch(table, l, seek).next == if |rows| > l.limit then Some(CursorOf(rows[l.limit - 1])) else None
  {
    CutMeaning(Remaining(table, l, seek), l.limit);
  }

  lemma CutMeaning(rows: seq<RequestRow>, limit: nat)
    requires limit >= 1
    ensures var page := Cut(Take(rows, limit + 1), limit);
            && page.data == Take(rows, limit)
            && page.next == if |rows| > limit then Some(CursorOf(rows[limit - 1])) else None
  {
    assert Take(Take(rows, limit + 1), limit) == Take(rows, limit);
  }
}
