/** What a client sees that follows the next position from page to page, while the table may
    change between two fetches. */
module Walks {
  import opened Wrappers
  import opened Calendar
  import opened Uuids
  import opened Requests
  import opened Cursors
  import opened RowOrder
  import opened Listings

  /** `pages[i]` was fetched from `tables[i]`, the first from `seek` and each other from where the
      one before ended. */
  ghost predicate IsWalk(tables: seq<Table>, l: Listing, seek: Option<SeekKey>, pages: seq<Batch>) {
    && 0 < |pages| == |tables|
    && pages[0] == Fetch(tables[0], l, seek)
    && (|pages| > 1 ==> pages[0].next.Some? && IsWalk(tables[1..], l, pages[0].next, pages[1..]))
  }

  predicate Completed(pages: seq<Batch>) {
    pages != [] && pages[|pages| - 1].next.None?
  }

  /** The rows of all pages, in the order the client receives them. */
  function AllRows(pages: seq<Batch>): seq<RequestRow> {
    if pages == [] then [] else pages[0].data + AllRows(pages[1..])
  }

  lemma AllRowsSplit(pages: seq<Batch>, x: RequestRow)
    requires pages != []
    ensures x in AllRows(pages) <==> x in pages[0].data || x in AllRows(pages[1..])
  {
  }

  predicate ByCreation(l: Listing) {
    l.limit >= 1 && l.sort.field == ByCreatedAt
  }

  // ---------------------------------------------------------------- walks over a changing table

  /** A row keeps its creation time for as long as it exists. */
  ghost predicate CreationFixed(tables: seq<Table>) {
    forall s: Table, t: Table, id: Uuid :: s in tables && t in tables && id in s && id in t ==> s[id].createdAt == t[id].createdAt
  }

  /** Every listed row's creation time is a whole millisecond. */
  ghost predicate AllExact(tables: seq<Table>, l: Listing) {
    forall t: Table, row :: t in tables && row in Matching(t, l) ==> MillisExact(row.createdAt)
  }

  /** The row is there, and to be listed from `seek` on, at every fetch. */
  ghost predicate StaysListed(id: Uuid, tables: seq<Table>, l: Listing, seek: Option<SeekKey>) {
    forall t: Table :: t in tables ==> id in t && Matches(t[id], l) && Beyond(seek, l.sort.direction, t[id])
  }

  ghost predicate StrictlyOrdered(direction: Direction, rows: seq<RequestRow>) {
    forall i, j :: 0 <= i < j < |rows| ==> Ahead(direction, KeyOf(rows[i]), KeyOf(rows[j]))
  }

  predicate HasId(rows: seq<RequestRow>, id: Uuid) {
    exists row :: row in rows && row.id == id
  }

  /** The page's last row, which the next fetch seeks from. */
  function Boundary(page: Batch): RequestRow
    requires page.data != []
  {
    page.data[|page.data| - 1]
  }

  /** The facts every induction over a walk uses about its first page. */
  lemma FirstPage(tables: seq<Table>, l: Listing, seek: Option<SeekKey>, pages: seq<Batch>)
    requires IsWalk(tables, l, seek, pages) && l.limit >= 1
    ensures var rows := Remaining(tables[0], l, seek);
            && pages[0].data == Take(rows, l.limit)
            && (pages[0].next.Some? <==> |rows| > l.limit)
            && (pages[0].next.Some? ==> pages[0].data != [] && pages[0].next.value == CursorOf(Boundary(pages[0])))
    ensures forall x :: x in pages[0].data ==> x in Eligible(tables[0], l, seek)
    ensures AllRows(pages) == pages[0].data + AllRows(pages[1..])
  {
    FetchMeaning(tables[0], l, seek);
  }

  /** The rows of a page come before every eligible row that is not on it. */
  lemma PageSplits(table: Table, l: Listing, seek: Option<SeekKey>, x: RequestRow)
    requires ByCreation(l)
    requires x in Eligible(table, l, seek)
    ensures var page := Fetch(table, l, seek);
            x in page.data
            || (page.next.Some? && page.data != [] && Ahead(l.sort.direction, KeyOf(Boundary(page)), KeyOf(x)))
  {
    FetchMeaning(table, l, seek);
    var rows := Remaining(table, l, seek);
    var k :| 0 <= k < |rows| && rows[k] == x;
    assert k < l.limit ==> Fetch(table, l, seek).data[k] == x;
  }

  lemma PageInOrder(table: Table, l: Listing, seek: Option<SeekKey>)
    requires ByCreation(l)
    ensures var page := Fetch(table, l, seek);
            && StrictlyOrdered(l.sort.direction, page.data)
            && forall x :: x in page.data ==> x == Boundary(page) || Ahead(l.sort.direction, KeyOf(x), KeyOf(Boundary(page)))
  {
    FetchMeaning(table, l, seek);
    var rows, data := Remaining(table, l, seek), Fetch(table, l, seek).data;
    assert forall i :: 0 <= i < |data| ==> data[i] == rows[i];
  }

  /** The rows come in strict (createdAt, id) order over all pages, all beyond the start. */
  lemma {:induction false} WalkInOrder(tables: seq<Table>, l: Listing, seek: Option<SeekKey>, pages: seq<Batch>)
    requires IsWalk(tables, l, seek, pages) && ByCreation(l)
    requires l.sort.direction.Desc? || AllExact(tables, l)
    ensures StrictlyOrdered(l.sort.direction, AllRows(pages))
    ensures forall row :: row in AllRows(pages) ==> Beyond(seek, l.sort.direction, row)
    decreases |pages|
  {
    FirstPage(tables, l, seek, pages);
    PageInOrder(tables[0], l, seek);
    if |pages| > 1 {
      WalkInOrder(tables[1..], l, pages[0].next, pages[1..]);
      RestFollows(tables[0], l, seek, AllRows(pages[1..]));
      ConcatOrdered(l.sort.direction, pages[0].data, AllRows(pages[1..]), Boundary(pages[0]));
    } else {
      assert AllRows(pages) == pages[0].data;
    }
  }

  /** Walking down, or from a whole millisecond, whatever lies beyond a page's cursor comes after
      the page's last row, hence also beyond the start of the page. */
  lemma RestFollows(table: Table, l: Listing, seek: Option<SeekKey>, rest: seq<RequestRow>)
    requires ByCreation(l) && Fetch(table, l, seek).next.Some?
    requires l.sort.direction.Desc? || forall row :: row in Matching(table, l) ==> MillisExact(row.createdAt)
    requires forall b :: b in rest ==> Beyond(Fetch(table, l, seek).next, l.sort.direction, b)
    ensures Fetch(table, l, seek).data != []
    ensures forall b :: b in rest ==> Ahead(l.sort.direction, KeyOf(Boundary(Fetch(table, l, seek))), KeyOf(b))
    ensures forall b :: b in rest ==> Beyond(seek, l.sort.direction, b)
  {
    FetchMeaning(table, l, seek);
    var page := Fetch(table, l, seek);
    var last := Boundary(page);
    assert last in Remaining(table, l, seek);
    assert last in Eligible(table, l, seek) && last in Matching(table, l);
    forall b | b in rest
      ensures Ahead(l.sort.direction, KeyOf(last), KeyOf(b)) && Beyond(seek, l.sort.direction, b)
    {
      assert Ahead(l.sort.direction, CursorOf(last), KeyOf(b));
    }
  }

  lemma ConcatOrdered(direction: Direction, front: seq<RequestRow>, back: seq<RequestRow>, pivot: RequestRow)
    requires StrictlyOrdered(direction, front) && StrictlyOrdered(direction, back)
    requires forall x :: x in front ==> x == pivot || Ahead(direction, KeyOf(x), KeyOf(pivot))
    requires forall y :: y in back ==> Ahead(direction, KeyOf(pivot), KeyOf(y))
    ensures StrictlyOrdered(direction, front + back)
  {
    forall i, j | 0 <= i < j < |front + back|
      ensures Ahead(direction, KeyOf((front + back)[i]), KeyOf((front + back)[j]))
    {
      if i < |front| <= j {
        assert front[i] in front && back[j - |front|] in back;
      }
    }
  }

  /** Rows that stay listed throughout are all returned by a completed walk. */
  lemma {:induction false} WalkMissesNone(tables: seq<Table>, l: Listing, seek: Option<SeekKey>,
      pages: seq<Batch>, id: Uuid)
    requires IsWalk(tables, l, seek, pages) && ByCreation(l) && Completed(pages)
    requires l.sort.direction.Asc? || AllExact(tables, l)
    requires CreationFixed(tables)
    requires StaysListed(id, tables, l, seek)
    ensures HasId(AllRows(pages), id)
    decreases |pages|
  {
    FirstPage(tables, l, seek, pages);
    var x := tables[0][id];
    assert x in Eligible(tables[0], l, seek);
    PageSplits(tables[0], l, seek, x);
    if x !in pages[0].data {
      var last := Boundary(pages[0]);
      assert last in pages[0].data && last in Matching(tables[0], l);
      assert Ahead(l.sort.direction, CursorOf(last), KeyOf(x));
      forall t | t in tables[1..]
        ensures t in tables && KeyOf(t[id]) == KeyOf(x)
      {
        assert t in tables;
      }
      WalkMissesNone(tables[1..], l, pages[0].next, pages[1..], id);
      var row :| row in AllRows(pages[1..]) && row.id == id;
      AllRowsSplit(pages, row);
    } else {
      AllRowsSplit(pages, x);
    }
  }

  /** The rows of a walk are rows of the tables it read. */
  lemma {:induction false} RowsComeFromTables(tables: seq<Table>, l: Listing, seek: Option<SeekKey>,
      pages: seq<Batch>, row: RequestRow)
    requires IsWalk(tables, l, seek, pages) && l.limit >= 1
    requires row in AllRows(pages)
    ensures exists t: Table :: t in tables && row in Matching(t, l)
    decreases |pages|
  {
    FirstPage(tables, l, seek, pages);
    AllRowsSplit(pages, row);
    if row in pages[0].data {
      assert tables[0] in tables;
    } else {
      RowsComeFromTables(tables[1..], l, pages[0].next, pages[1..], row);
    }
  }

  lemma SameIdSameKey(tables: seq<Table>, l: Listing, seek: Option<SeekKey>, pages: seq<Batch>, a: RequestRow,
      b: RequestRow)
    requires IsWalk(tables, l, seek, pages) && l.limit >= 1 && CreationFixed(tables)
    requires a in AllRows(pages) && b in AllRows(pages) && a.id == b.id
    ensures KeyOf(a) == KeyOf(b)
  {
    RowsComeFromTables(tables, l, seek, pages, a);
    RowsComeFromTables(tables, l, seek, pages, b);
    var s: Table :| s in tables && a in Matching(s, l);
    var t: Table :| t in tables && b in Matching(t, l);
    assert s[a.id] == a && t[b.id] == b;
  }

  lemma OrderedDiffer(direction: Direction, rows: seq<RequestRow>)
    requires StrictlyOrdered(direction, rows)
    requires forall a, b :: a in rows && b in rows && a.id == b.id ==> KeyOf(a) == KeyOf(b)
    ensures forall i, j :: 0 <= i < j < |rows| ==> rows[i].id != rows[j].id
  {
    forall i, j | 0 <= i < j < |rows|
      ensures rows[i].id != rows[j].id
    {
      assert Ahead(direction, KeyOf(rows[i]), KeyOf(rows[j]));
      assert rows[i] in rows && rows[j] in rows;
    }
  }

  /** The stability the design promises, for whole-millisecond creation times and a listing by
      creation: whatever is inserted, removed or edited between the fetches, no row is returned
      twice, and a completed walk returns every row that stayed listed throughout exactly once. */
  lemma StableWalk(tables: seq<Table>, l: Listing, seek: Option<SeekKey>, pages: seq<Batch>)
    requires IsWalk(tables, l, seek, pages) && ByCreation(l)
    requires CreationFixed(tables) && AllExact(tables, l)
    ensures var rows := AllRows(pages);
            && (forall i, j :: 0 <= i < j < |rows| ==> rows[i].id != rows[j].id)
            && (Completed(pages) ==> forall id :: StaysListed(id, tables, l, seek) ==> HasId(rows, id))
  {
    var rows := AllRows(pages);
    WalkInOrder(tables, l, seek, pages);
    forall a, b | a in rows && b in rows && a.id == b.id
      ensures KeyOf(a) == KeyOf(b)
    {
      SameIdSameKey(tables, l, seek, pages, a, b);
    }
    OrderedDiffer(l.sort.direction, rows);
    if Completed(pages) {
      forall id | StaysListed(id, tables, l, seek)
        ensures HasId(rows, id)
      {
        WalkMissesNone(tables, l, seek, pages, id);
      }
    }
  }
}
