/** The listing endpoint's query texts (`parseSort`, the cursor, the empty-text rules) and its
    pages, tied to the positions the walks are about. */
module Pagination {
  import opened Wrappers
  import opened Calendar
  import opened Uuids
  import opened Requests
  import opened Cursors
  import opened RowOrder
  import opened Listings
  import Walks

  datatype Query = Query(
    status: Option<Status>,
    channel: Option<Channel>,
    category: Option<string>,
    sort: Option<string>,
    limit: Option<nat>,
    cursor: Option<string>)

  datatype Page = Page(data: seq<RequestRow>, nextCursor: Option<string>)

  datatype ListError = BadSort | BadCursor

  const DEFAULT_LIMIT: nat := 20

  function LimitOf(q: Query): nat {
    if q.limit.Some? then q.limit.value else DEFAULT_LIMIT
  }

  /** An absent and an empty query text are the same to the repository. */
  function Given(text: Option<string>): Option<string> {
    if text == Some("") then None else text
  }

  /** `split(':')` */
  function SplitColon(s: string): (parts: seq<string>)
    ensures parts != []
  {
    if s == "" then [""]
    else
      var rest := SplitColon(s[1..]);
      if s[0] == ':' then [""] + rest else [[s[0]] + rest[0]] + rest[1..]
  }

  function UpperCase(s: string): (u: string)
    ensures |u| == |s|
  {
    seq(|s|, i requires 0 <= i < |s| =>
      if 'a' <= s[i] <= 'z' then (s[i] as int - 'a' as int + 'A' as int) as char else s[i])
  }

  function FieldNamed(name: string): Option<SortField> {
    if name == "createdAt" then Some(ByCreatedAt)
    else if name == "updatedAt" then Some(ByUpdatedAt)
    else if name == "status" then Some(ByStatus)
    else if name == "urgency" then Some(ByUrgency)
    else None
  }

  function DirectionNamed(name: string): Option<Direction> {
    if name == "ASC" then Some(Asc)
    else if name == "DESC" then Some(Desc)
    else None
  }

  /** `parseSort`, followed by the query builder's check of what it is given. */
  function ParseSort(sort: Option<string>): Result<Sort, ListError> {
    match Given(sort)
    case None => Ok(Sort(ByCreatedAt, Desc))
    case Some(text) =>
      var parts := SplitColon(text);
      if |parts| < 2 then Err(BadSort)
      else
        match (FieldNamed(parts[0]), DirectionNamed(UpperCase(parts[1])))
        case (Some(field), Some(direction)) => Ok(Sort(field, direction))
        case _ => Err(BadSort)
  }

  /** The position a query starts from; none for the first page. */
  function SeekFrom(cursor: Option<string>): Result<Option<SeekKey>, ListError> {
    match Given(cursor)
    case None => Ok(None)
    case Some(text) => (
      match SeekOf(text)
      case Ok(key) => Ok(Some(key))
      case Err(_) => Err(BadCursor))
  }

  function ListingOf(tenantId: Uuid, q: Query, sort: Sort): Listing {
    Listing(tenantId, q.status, q.channel, Given(q.category), sort, LimitOf(q))
  }

  /** The response for a batch: its rows, and the cursor of the last one if there is a next page. */
  function ToPage(batch: Batch): Page {
    Page(batch.data,
         if batch.next.Some? && batch.data != [] then
           var last := Walks.Boundary(batch);
           Some(EncodeCursor(ToMillis(last.createdAt), last.id))
         else None)
  }

  /** `findPaginated` */
  ghost function FindPage(table: Table, tenantId: Uuid, q: Query): Result<Page, ListError> {
    match ParseSort(q.sort)
    case Err(e) => Err(e)
    case Ok(sort) => (
      match SeekFrom(q.cursor)
      case Err(e) => Err(e)
      case Ok(seek) => Ok(ToPage(Fetch(table, ListingOf(tenantId, q, sort), seek))))
  }

  /** `pages[i]` was fetched from `tables[i]`, each page but the first with the cursor text of the
      one before. */
  ghost predicate IsTextWalk(tables: seq<Table>, tenantId: Uuid, q: Query, pages: seq<Page>) {
    && 0 < |pages| == |tables|
    && FindPage(tables[0], tenantId, q) == Ok(pages[0])
    && (|pages| > 1 ==>
          && pages[0].nextCursor.Some?
          && IsTextWalk(tables[1..], tenantId, q.(cursor := pages[0].nextCursor), pages[1..]))
  }

  function ToPages(batches: seq<Batch>): (pages: seq<Page>)
    ensures |pages| == |batches|
    ensures forall i :: 0 <= i < |pages| ==> pages[i] == ToPage(batches[i])
  {
    if batches == [] then [] else [ToPage(batches[0])] + ToPages(batches[1..])
  }

  lemma CursorTextMeaning(batch: Batch)
    requires batch.next.Some? ==> batch.data != [] && batch.next.value == CursorOf(Walks.Boundary(batch))
    ensures ToPage(batch).nextCursor.Some? <==> batch.next.Some?
    ensures batch.next.Some? ==> SeekFrom(ToPage(batch).nextCursor) == Ok(batch.next)
  {
    hide SeekOf;
    hide EncodeCursor;
    if batch.next.Some? {
      var last := Walks.Boundary(batch);
      assert ToMillis(last.createdAt) >= FIRST_MILLIS;
      SeekOfEncodeCursor(ToMillis(last.createdAt), last.id);
    }
  }

  /** The cursor text of a page makes the database seek from exactly the batch's next position. */
  lemma CursorTextSeeks(table: Table, l: Listing, seek: Option<SeekKey>)
    requires l.limit >= 1
    ensures var batch := Fetch(table, l, seek);
            && (ToPage(batch).nextCursor.Some? <==> batch.next.Some?)
            && (batch.next.Some? ==> SeekFrom(ToPage(batch).nextCursor) == Ok(batch.next))
  {
    hide SeekOf;
    hide EncodeCursor;
    FetchMeaning(table, l, seek);
    CursorTextMeaning(Fetch(table, l, seek));
  }

  lemma HeadTail<T>(s: seq<T>)
    requires s != []
    ensures s == [s[0]] + s[1..]
  {
  }

  lemma ToPagesCons(batch: Batch, rest: seq<Batch>)
    ensures ToPages([batch] + rest) == [ToPage(batch)] + ToPages(rest)
  {
    assert ([batch] + rest)[1..] == rest;
  }

  /** Following cursor texts is walking from position to position: the pages of a text walk are the
      texts of a walk's batches, and every walk shows as such a text walk. */
  lemma {:induction false} TextWalkIsWalk(tables: seq<Table>, tenantId: Uuid, q: Query, sort: Sort,
      seek: Option<SeekKey>, pages: seq<Page>)
    returns (batches: seq<Batch>)
    requires ParseSort(q.sort) == Ok(sort) && SeekFrom(q.cursor) == Ok(seek) && LimitOf(q) >= 1
    requires IsTextWalk(tables, tenantId, q, pages)
    ensures Walks.IsWalk(tables, ListingOf(tenantId, q, sort), seek, batches)
    ensures pages == ToPages(batches)
    decreases |pages|
  {
    hide SeekOf;
    hide EncodeCursor;
    CursorTextSeeks(tables[0], ListingOf(tenantId, q, sort), seek);
    var batch := Fetch(tables[0], ListingOf(tenantId, q, sort), seek);
    HeadTail(pages);
    if |pages| == 1 {
      batches := [batch];
      ToPagesCons(batch, []);
    } else {
      var rest := TextWalkIsWalk(tables[1..], tenantId, q.(cursor := pages[0].nextCursor), sort, batch.next, pages[1..]);
      batches := [batch] + rest;
      assert batches[1..] == rest;
      ToPagesCons(batch, rest);
    }
  }

  lemma {:induction false} CursorNeedsRow(tables: seq<Table>, l: Listing, seek: Option<SeekKey>, batches: seq<Batch>)
    requires l.limit >= 1 && Walks.IsWalk(tables, l, seek, batches)
    ensures forall b :: b in batches && b.next.Some? ==> b.data != []
    decreases |batches|
  {
    FetchMeaning(tables[0], l, seek);
    assert batches == [batches[0]] + batches[1..];
    if |batches| > 1 {
      CursorNeedsRow(tables[1..], l, batches[0].next, batches[1..]);
    }
  }

  /** A text walk is at its end exactly when the walk is. */
  lemma CompletedTexts(tables: seq<Table>, l: Listing, seek: Option<SeekKey>, batches: seq<Batch>)
    requires l.limit >= 1 && Walks.IsWalk(tables, l, seek, batches)
    ensures ToPages(batches)[|batches| - 1].nextCursor.None? <==> Walks.Completed(batches)
  {
    hide EncodeCursor;
    CursorNeedsRow(tables, l, seek, batches);
    assert batches[|batches| - 1] in batches;
  }

  lemma {:induction false} WalkIsTextWalk(tables: seq<Table>, tenantId: Uuid, q: Query, sort: Sort,
      seek: Option<SeekKey>, batches: seq<Batch>)
    requires ParseSort(q.sort) == Ok(sort) && SeekFrom(q.cursor) == Ok(seek) && LimitOf(q) >= 1
    requires Walks.IsWalk(tables, ListingOf(tenantId, q, sort), seek, batches)
    ensures IsTextWalk(tables, tenantId, q, ToPages(batches))
    decreases |batches|
  {
    hide SeekOf;
    hide EncodeCursor;
    CursorTextSeeks(tables[0], ListingOf(tenantId, q, sort), seek);
    if |batches| > 1 {
      var page := ToPage(batches[0]);
      WalkIsTextWalk(tables[1..], tenantId, q.(cursor := page.nextCursor), sort, batches[0].next, batches[1..]);
      assert ToPages(batches)[1..] == ToPages(batches[1..]);
    }
  }

  function FieldName(field: SortField): (name: string)
    ensures ':' !in name && FieldNamed(name) == Some(field)
  {
    match field
    case ByCreatedAt => "createdAt"
    case ByUpdatedAt => "updatedAt"
    case ByStatus => "status"
    case ByUrgency => "urgency"
  }

  function DirectionName(direction: Direction): (name: string)
    ensures ':' !in name
  {
    match direction
    case Asc => "asc"
    case Desc => "desc"
  }

  /** The eight texts the query DTO lets through are read as the sorts they name. */
  lemma ParseSortAccepted(sort: Sort)
    ensures ParseSort(Some(FieldName(sort.field) + ":" + DirectionName(sort.direction))) == Ok(sort)
  {
    SplitOnce(FieldName(sort.field), DirectionName(sort.direction));
    assert UpperCase("asc") == "ASC" && UpperCase("desc") == "DESC";
  }

  lemma {:induction false} NoColon(s: string)
    requires ':' !in s
    ensures SplitColon(s) == [s]
  {
    if s != "" {
      NoColon(s[1..]);
      assert [s[0]] + s[1..] == s;
    }
  }

  lemma {:induction false} SplitOnce(s: string, t: string)
    requires ':' !in s && ':' !in t
    ensures SplitColon(s + ":" + t) == [s, t]
  {
    var text := s + ":" + t;
    if s == "" {
      assert text[1..] == t;
      NoColon(t);
    } else {
      assert text[1..] == s[1..] + ":" + t;
      SplitOnce(s[1..], t);
      assert [s[0]] + s[1..] == s;
    }
  }
}
