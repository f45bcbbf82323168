/** What a page of the listing holds and in what order, in terms of the query's texts and the columns of
    the rows. */
module ListingLaws {
  import opened Wrappers
  import opened Calendar
  import opened Uuids
  import opened Requests
  import opened Cursors
  import opened RowOrder
  import opened Listings
  import opened Pagination
  import Walks

  // ---------------------------------------------------------------- the order

  /** Neither a sort text nor an empty one: the default. */
  predicate Unsorted(q: Query) {
    q.sort == None || q.sort == Some("")
  }

  lemma PageInOrder(table: Table, tenantId: Uuid, q: Query, sort: Sort, page: Page, i: nat, j: nat)
    requires FindPage(table, tenantId, q) == Ok(page) && ParseSort(q.sort) == Ok(sort)
    requires i < j < |page.data|
    ensures Before(sort, page.data[i], page.data[j])
  {
    hide SeekFrom, ParseSort, EncodeCursor, Before;
    var seek := SeekFrom(q.cursor).value;
    var rows := Remaining(table, ListingOf(tenantId, q, sort), seek);
    assert InOrder(sort, rows);
    assert page.data <= rows;
  }

  /** Without a sort text the newest row comes first, and of rows of one time that with the larger id. */
  lemma NewestFirst(table: Table, tenantId: Uuid, q: Query, page: Page, i: nat, j: nat)
    requires FindPage(table, tenantId, q) == Ok(page) && Unsorted(q)
    requires i < j < |page.data|
    ensures var a, b := page.data[i], page.data[j];
            b.createdAt < a.createdAt || (b.createdAt == a.createdAt && b.id < a.id)
  {
    hide SeekFrom, EncodeCursor;
    PageInOrder(table, tenantId, q, Sort(ByCreatedAt, Desc), page, i, j);
  }

  /** The place of a status, and of an urgency, in the order of the column; no urgency comes last. */
  function StatusPlace(s: Status): nat {
    if s == Open then 0 else if s == InProgress then 1 else if s == Resolved then 2 else 3
  }

  function UrgencyPlace(u: Option<Urgency>): nat {
    if u == Some(Low) then 0 else if u == Some(Medium) then 1 else if u == Some(High) then 2
    else if u == Some(Critical) then 3 else 4
  }

  /** Up in the values, and in the ids where those are the same. */
  predicate Up(x: int, i: Uuid, y: int, j: Uuid) {
    x < y || (x == y && i < j)
  }

  lemma TextOrder(table: Table, tenantId: Uuid, q: Query, field: SortField, direction: Direction, page: Page, i: nat, j: nat)
    requires FindPage(table, tenantId, q) == Ok(page) && i < j < |page.data|
    requires q.sort == Some(FieldName(field) + ":" + DirectionName(direction))
    ensures Before(Sort(field, direction), page.data[i], page.data[j])
  {
    hide SeekFrom, EncodeCursor, ParseSort, Before, FindPage, FieldName, DirectionName;
    ParseSortAccepted(Sort(field, direction));
    PageInOrder(table, tenantId, q, Sort(field, direction), page, i, j);
  }

  lemma CreatedAtTexts(table: Table, tenantId: Uuid, q: Query, page: Page, i: nat, j: nat)
    requires FindPage(table, tenantId, q) == Ok(page) && i < j < |page.data|
    ensures var a, b := page.data[i], page.data[j];
            && (q.sort == Some("createdAt:asc") ==> Up(a.createdAt, a.id, b.createdAt, b.id))
            && (q.sort == Some("createdAt:desc") ==> Up(b.createdAt, b.id, a.createdAt, a.id))
  {
    hide FindPage;
    if q.sort == Some("createdAt:asc") {
      assert "createdAt:asc" == "createdAt" + ":" + "asc";
      TextOrder(table, tenantId, q, ByCreatedAt, Asc, page, i, j);
    } else if q.sort == Some("createdAt:desc") {
      assert "createdAt:desc" == "createdAt" + ":" + "desc";
      TextOrder(table, tenantId, q, ByCreatedAt, Desc, page, i, j);
    }
  }

  lemma UpdatedAtTexts(table: Table, tenantId: Uuid, q: Query, page: Page, i: nat, j: nat)
    requires FindPage(table, tenantId, q) == Ok(page) && i < j < |page.data|
    ensures var a, b := page.data[i], page.data[j];
            && (q.sort == Some("updatedAt:asc") ==> Up(a.updatedAt, a.id, b.updatedAt, b.id))
            && (q.sort == Some("updatedAt:desc") ==> Up(b.updatedAt, b.id, a.updatedAt, a.id))
  {
    hide FindPage;
    if q.sort == Some("updatedAt:asc") {
      assert "updatedAt:asc" == "updatedAt" + ":" + "asc";
      TextOrder(table, tenantId, q, ByUpdatedAt, Asc, page, i, j);
    } else if q.sort == Some("updatedAt:desc") {
      assert "updatedAt:desc" == "updatedAt" + ":" + "desc";
      TextOrder(table, tenantId, q, ByUpdatedAt, Desc, page, i, j);
    }
  }

  lemma StatusTexts(table: Table, tenantId: Uuid, q: Query, page: Page, i: nat, j: nat)
    requires FindPage(table, tenantId, q) == Ok(page) && i < j < |page.data|
    ensures var a, b := page.data[i], page.data[j];
            && (q.sort == Some("status:asc") ==> Up(StatusPlace(a.status), a.id, StatusPlace(b.status), b.id))
            && (q.sort == Some("status:desc") ==> Up(StatusPlace(b.status), b.id, StatusPlace(a.status), a.id))
  {
    hide FindPage;
    if q.sort == Some("status:asc") {
      assert "status:asc" == "status" + ":" + "asc";
      TextOrder(table, tenantId, q, ByStatus, Asc, page, i, j);
    } else if q.sort == Some("status:desc") {
      assert "status:desc" == "status" + ":" + "desc";
      TextOrder(table, tenantId, q, ByStatus, Desc, page, i, j);
    }
  }

  lemma UrgencyTexts(table: Table, tenantId: Uuid, q: Query, page: Page, i: nat, j: nat)
    requires FindPage(table, tenantId, q) == Ok(page) && i < j < |page.data|
    ensures var a, b := page.data[i], page.data[j];
            && (q.sort == Some("urgency:asc") ==> Up(UrgencyPlace(a.urgency), a.id, UrgencyPlace(b.urgency), b.id))
            && (q.sort == Some("urgency:desc") ==> Up(UrgencyPlace(b.urgency), b.id, UrgencyPlace(a.urgency), a.id))
  {
    hide FindPage;
    if q.sort == Some("urgency:asc") {
      assert "urgency:asc" == "urgency" + ":" + "asc";
      TextOrder(table, tenantId, q, ByUrgency, Asc, page, i, j);
    } else if q.sort == Some("urgency:desc") {
      assert "urgency:desc" == "urgency" + ":" + "desc";
      TextOrder(table, tenantId, q, ByUrgency, Desc, page, i, j);
    }
  }

  /** Each of the eight sort texts orders a page by the column it names, upwards or downwards, and by id
      in the same direction. */
  lemma SortTexts(table: Table, tenantId: Uuid, q: Query, page: Page, i: nat, j: nat)
    requires FindPage(table, tenantId, q) == Ok(page) && i < j < |page.data|
    ensures var a, b := page.data[i], page.data[j];
            && (q.sort == Some("createdAt:asc") ==> Up(a.createdAt, a.id, b.createdAt, b.id))
            && (q.sort == Some("createdAt:desc") ==> Up(b.createdAt, b.id, a.createdAt, a.id))
            && (q.sort == Some("updatedAt:asc") ==> Up(a.updatedAt, a.id, b.updatedAt, b.id))
            && (q.sort == Some("updatedAt:desc") ==> Up(b.updatedAt, b.id, a.updatedAt, a.id))
            && (q.sort == Some("status:asc") ==> Up(StatusPlace(a.status), a.id, StatusPlace(b.status), b.id))
            && (q.sort == Some("status:desc") ==> Up(StatusPlace(b.status), b.id, StatusPlace(a.status), a.id))
            && (q.sort == Some("urgency:asc") ==> Up(UrgencyPlace(a.urgency), a.id, UrgencyPlace(b.urgency), b.id))
            && (q.sort == Some("urgency:desc") ==> Up(UrgencyPlace(b.urgency), b.id, UrgencyPlace(a.urgency), a.id))
  {
    hide *;
    CreatedAtTexts(table, tenantId, q, page, i, j);
    UpdatedAtTexts(table, tenantId, q, page, i, j);
    StatusTexts(table, tenantId, q, page, i, j);
    UrgencyTexts(table, tenantId, q, page, i, j);
  }

  // ---------------------------------------------------------------- what is refused

  /** A sort text the repository reads: a column, a colon and a direction in any case; what may follow after
      another colon does not count. */
  ghost predicate SortText(text: string) {
    exists column, direction, rest :: ReadsAs(text, column, direction, rest)
  }

  predicate ReadsAs(text: string, column: string, direction: string, rest: string) {
    && text == column + ":" + direction + rest
    && (column == "createdAt" || column == "updatedAt" || column == "status" || column == "urgency")
    && (UpperCase(direction) == "ASC" || UpperCase(direction) == "DESC")
    && (rest == "" || rest[0] == ':')
  }

  /** A page is refused exactly for a sort text that is not one, or for a cursor the database cannot read;
      an empty text is no sort and no cursor. */
  lemma RefusedIff(table: Table, tenantId: Uuid, q: Query)
    ensures var r := FindPage(table, tenantId, q);
            && (r == Err(BadSort) <==> !Unsorted(q) && !SortText(q.sort.value))
            && (r == Err(BadCursor) <==> && (Unsorted(q) || SortText(q.sort.value))
                                         && q.cursor.Some? && q.cursor.value != "" && SeekOf(q.cursor.value).Err?)
  {
    hide SeekOf, EncodeCursor, SortText, SplitColon, UpperCase;
    if !Unsorted(q) {
      SortTextIff(q.sort.value);
    }
  }

  lemma SortTextIff(text: string)
    requires text != ""
    ensures ParseSort(Some(text)).Ok? <==> SortText(text)
  {
    hide SortText;
    if ParseSort(Some(text)).Ok? {
      ParsedIsSortText(text);
    }
    if SortText(text) {
      SortTextParses(text);
    }
  }

  lemma ParsedIsSortText(text: string)
    requires text != "" && ParseSort(Some(text)).Ok?
    ensures SortText(text)
  {
    hide FieldNamed, DirectionNamed, UpperCase;
    var parts := SplitColon(text);
    var rest := SplitParts(text);
    hide SplitColon;
    Named(parts[0], parts[1]);
    assert ReadsAs(text, parts[0], parts[1], rest);
  }

  lemma SortTextParses(text: string)
    requires text != "" && SortText(text)
    ensures ParseSort(Some(text)).Ok?
  {
    hide FieldNamed, DirectionNamed, UpperCase, SplitColon;
    var column, direction, rest :| ReadsAs(text, column, direction, rest);
    ColumnPlain(column);
    DirectionPlain(direction);
    PartsAre(column, direction, rest);
    Named(column, direction);
  }

  lemma Named(column: string, direction: string)
    ensures FieldNamed(column).Some?
       <==> column == "createdAt" || column == "updatedAt" || column == "status" || column == "urgency"
    ensures DirectionNamed(UpperCase(direction)).Some? <==> UpperCase(direction) == "ASC" || UpperCase(direction) == "DESC"
  {
    hide UpperCase;
  }

  lemma ColumnPlain(column: string)
    requires column == "createdAt" || column == "updatedAt" || column == "status" || column == "urgency"
    ensures ':' !in column
  {
  }

  lemma DirectionPlain(direction: string)
    requires UpperCase(direction) == "ASC" || UpperCase(direction) == "DESC"
    ensures ':' !in direction
  {
    forall i | 0 <= i < |direction|
      ensures direction[i] != ':'
    {
      assert UpperCase(direction)[i] != ':';
    }
  }

  /** The first two parts of a text, and what follows them. */
  lemma SplitParts(text: string) returns (rest: string)
    requires |SplitColon(text)| >= 2
    ensures text == SplitColon(text)[0] + ":" + SplitColon(text)[1] + rest
    ensures rest == "" || rest[0] == ':'
  {
    var tail := SplitHead(text);
    rest := SplitFirst(tail);
  }

  lemma {:induction false} SplitHead(text: string) returns (tail: string)
    requires |SplitColon(text)| >= 2
    ensures text == SplitColon(text)[0] + ":" + tail && SplitColon(text)[1..] == SplitColon(tail)
  {
    if text[0] == ':' {
      tail := text[1..];
    } else {
      tail := SplitHead(text[1..]);
    }
    assert text == [text[0]] + text[1..];
  }

  lemma {:induction false} SplitFirst(text: string) returns (rest: string)
    ensures text == SplitColon(text)[0] + rest && (rest == "" || rest[0] == ':')
  {
    if text == "" || text[0] == ':' {
      rest := text;
    } else {
      rest := SplitFirst(text[1..]);
      assert text == [text[0]] + text[1..];
    }
  }

  lemma {:induction false} PartsAre(column: string, direction: string, rest: string)
    requires ':' !in column && ':' !in direction && (rest == "" || rest[0] == ':')
    ensures var parts := SplitColon(column + ":" + direction + rest);
            |parts| >= 2 && parts[0] == column && parts[1] == direction
  {
    var text := column + ":" + direction + rest;
    if column == "" {
      assert text[1..] == direction + rest;
      FirstPartIs(direction, rest);
    } else {
      assert text[1..] == column[1..] + ":" + direction + rest;
      PartsAre(column[1..], direction, rest);
      assert [column[0]] + column[1..] == column;
    }
  }

  lemma {:induction false} FirstPartIs(s: string, rest: string)
    requires ':' !in s && (rest == "" || rest[0] == ':')
    ensures SplitColon(s + rest)[0] == s
  {
    if s == "" {
      assert s + rest == rest;
    } else {
      assert (s + rest)[1..] == s[1..] + rest;
      FirstPartIs(s[1..], rest);
      assert [s[0]] + s[1..] == s;
    }
  }

  // ---------------------------------------------------------------- the rows

  /** A row the query asks for: of the tenant, not deleted, and as the filters say; an empty category text
      is no filter. */
  predicate Asked(row: RequestRow, tenantId: Uuid, q: Query) {
    && row.tenantId == tenantId && row.deletedAt == None
    && (q.status == None || q.status == Some(row.status))
    && (q.channel == None || q.channel == Some(row.channel))
    && (q.category == None || q.category == Some("") || q.category == row.category)
  }

  predicate Stored(row: RequestRow, table: Table) {
    row.id in table && table[row.id] == row
  }

  /** The rows a page has room for: 20 unless the query says otherwise. */
  function Room(q: Query): nat {
    match q.limit
    case Some(n) => n
    case None => 20
  }

  lemma AskedIsMatching(table: Table, tenantId: Uuid, q: Query, sort: Sort, row: RequestRow)
    ensures row in Matching(table, ListingOf(tenantId, q, sort)) <==> Stored(row, table) && Asked(row, tenantId, q)
  {
  }

  /** Every page, from whatever cursor and in whatever order, has only rows that are asked for, and no more
      than there is room for. */
  lemma PageHolds(table: Table, tenantId: Uuid, q: Query, page: Page)
    requires FindPage(table, tenantId, q) == Ok(page)
    ensures |page.data| <= Room(q)
    ensures forall row :: row in page.data ==> Stored(row, table) && Asked(row, tenantId, q)
  {
    hide SeekFrom, EncodeCursor, ParseSort, Asked, Stored, ListingOf;
    var sort, seek := ParseSort(q.sort).value, SeekFrom(q.cursor).value;
    var l := ListingOf(tenantId, q, sort);
    RoomIsLimit(tenantId, q, sort);
    assert page.data <= Remaining(table, l, seek);
    forall row | row in page.data
      ensures Stored(row, table) && Asked(row, tenantId, q)
    {
      assert row in Remaining(table, l, seek);
      AskedIsMatching(table, tenantId, q, sort, row);
    }
  }

  lemma RoomIsLimit(tenantId: Uuid, q: Query, sort: Sort)
    ensures ListingOf(tenantId, q, sort).limit == Room(q) && ListingOf(tenantId, q, sort).sort == sort
  {
  }

  /** Where a page starts: at the front, or after the position its cursor was made of. */
  ghost predicate StartsAfter(q: Query, from: Option<(Millis, Uuid)>) {
    match from
    case None => q.cursor == None || q.cursor == Some("")
    case Some((at, id)) => at >= FIRST_MILLIS && q.cursor == Some(EncodeCursor(at, id))
  }

  /** Older than the position, or as old and with a smaller id. */
  predicate Older(row: RequestRow, from: Option<(Millis, Uuid)>) {
    match from
    case None => true
    case Some((at, id)) => row.createdAt < at * 1000 || (row.createdAt == at * 1000 && row.id < id)
  }

  /** The cursor text of a row's position: the millisecond of its creation, and its id. */
  function TextOfPosition(row: RequestRow): string {
    EncodeCursor(row.createdAt / 1000, row.id)
  }

  lemma StartSeeks(q: Query, from: Option<(Millis, Uuid)>)
    requires StartsAfter(q, from)
    ensures SeekFrom(q.cursor) == Ok(if from.Some? then Some(SeekKey(from.value.0 * 1000, from.value.1)) else None)
  {
    hide SeekOf, EncodeCursor;
    if from.Some? {
      SeekOfEncodeCursor(from.value.0, from.value.1);
    }
  }

  lemma WantedIsEligible(table: Table, tenantId: Uuid, q: Query, from: Option<(Millis, Uuid)>, wanted: set<RequestRow>)
    requires forall row :: row in wanted <==> Stored(row, table) && Asked(row, tenantId, q) && Older(row, from)
    ensures var seek := if from.Some? then Some(SeekKey(from.value.0 * 1000, from.value.1)) else None;
            Eligible(table, ListingOf(tenantId, q, Sort(ByCreatedAt, Desc)), seek) == wanted
  {
    hide Stored, Asked, Matching;
    var sort := Sort(ByCreatedAt, Desc);
    var seek := if from.Some? then Some(SeekKey(from.value.0 * 1000, from.value.1)) else None;
    forall row
      ensures row in Eligible(table, ListingOf(tenantId, q, sort), seek) <==> row in wanted
    {
      AskedIsMatching(table, tenantId, q, sort, row);
    }
  }

  /** The default listing: of the rows that are asked for and older than the cursor's position, the newest,
      as many as there is room for; and, if there are more, a cursor made of the last row on the page. */
  lemma DefaultPage(table: Table, tenantId: Uuid, q: Query, from: Option<(Millis, Uuid)>, wanted: set<RequestRow>)
    returns (page: Page)
    requires Unsorted(q) && q.limit != Some(0) && StartsAfter(q, from)
    requires forall row :: row in wanted <==> Stored(row, table) && Asked(row, tenantId, q) && Older(row, from)
    ensures FindPage(table, tenantId, q) == Ok(page)
    ensures |page.data| == if |wanted| <= Room(q) then |wanted| else Room(q)
    ensures forall row :: row in page.data ==> row in wanted
    ensures forall row, x :: row in wanted && row !in page.data && x in page.data ==>
              row.createdAt < x.createdAt || (row.createdAt == x.createdAt && row.id < x.id)
    ensures |wanted| <= Room(q) ==> page.nextCursor == None
    ensures |wanted| > Room(q) ==> page.data != [] && page.nextCursor == Some(TextOfPosition(page.data[|page.data| - 1]))
  {
    hide EncodeCursor, SeekFrom, SeekOf, Eligible, ListingOf, StartsAfter, Stored, Asked, Older, FindPage, Fetch, ToPage, TextOfPosition;
    var rows;
    page, rows := DefaultRows(table, tenantId, q, from, wanted);
    assert forall row :: row in page.data ==> row in rows;
    forall row, x | row in wanted && row !in page.data && x in page.data
      ensures row.createdAt < x.createdAt || (row.createdAt == x.createdAt && row.id < x.id)
    {
      BehindPage(rows, Room(q), row, x);
    }
  }

  lemma DefaultRows(table: Table, tenantId: Uuid, q: Query, from: Option<(Millis, Uuid)>, wanted: set<RequestRow>)
    returns (page: Page, rows: seq<RequestRow>)
    requires Unsorted(q) && q.limit != Some(0) && StartsAfter(q, from)
    requires forall row :: row in wanted <==> Stored(row, table) && Asked(row, tenantId, q) && Older(row, from)
    ensures FindPage(table, tenantId, q) == Ok(page)
    ensures InOrder(Sort(ByCreatedAt, Desc), rows) && |rows| == |wanted| && forall row :: row in rows <==> row in wanted
    ensures page.data == Take(rows, Room(q))
    ensures |wanted| <= Room(q) ==> page.nextCursor == None
    ensures |wanted| > Room(q) ==> page.data != [] && page.nextCursor == Some(TextOfPosition(page.data[|page.data| - 1]))
  {
    hide EncodeCursor, SeekFrom, SeekOf, Eligible, ListingOf, StartsAfter, Stored, Asked, Older, Fetch, InOrder;
    var l := ListingOf(tenantId, q, Sort(ByCreatedAt, Desc));
    var seek := if from.Some? then Some(SeekKey(from.value.0 * 1000, from.value.1)) else None;
    StartSeeks(q, from);
    RoomIsLimit(tenantId, q, Sort(ByCreatedAt, Desc));
    WantedIsEligible(table, tenantId, q, from, wanted);
    rows := Remaining(table, l, seek);
    page := ToPage(Fetch(table, l, seek));
    FetchMeaning(table, l, seek);
  }

  lemma BehindPage(rows: seq<RequestRow>, room: nat, row: RequestRow, x: RequestRow)
    requires InOrder(Sort(ByCreatedAt, Desc), rows) && row in rows && row !in Take(rows, room) && x in Take(rows, room)
    ensures row.createdAt < x.createdAt || (row.createdAt == x.createdAt && row.id < x.id)
  {
    var i :| 0 <= i < |rows| && rows[i] == row;
    var j :| 0 <= j < |Take(rows, room)| && Take(rows, room)[j] == x;
    TakenAt(rows, room, i);
    assert Before(Sort(ByCreatedAt, Desc), rows[j], rows[i]);
  }

  lemma TakenAt(rows: seq<RequestRow>, room: nat, i: nat)
    requires i < |rows|
    ensures i < |Take(rows, room)| ==> rows[i] in Take(rows, room)
  {
    if i < |Take(rows, room)| {
      assert Take(rows, room)[i] == rows[i];
    }
  }
}
